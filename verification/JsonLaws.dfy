/** The laws that every digest and every stored reply depends on. */
module JsonLaws {
  import opened Json
  import opened JsonParser
  import opened JsonPieces
  import opened JsonCanonical

  ghost predicate AllInOrder(v: Value)
    decreases v
  {
    match v
    case Arr(items) => forall i | 0 <= i < |items| :: AllInOrder(items[i])
    case Obj(ms) => InOrder(ms) && forall i | 0 <= i < |ms| :: AllInOrder(ms[i].value)
    case _ => true
  }

  /** Canonical form has every object's members in strictly increasing UTF-16 order of their keys. */
  lemma {:induction false} CanonInOrder(v: Value, depth: nat, lim: Limits)
    requires WellFormed(v, depth, lim)
    ensures AllInOrder(Canon(v))
    decreases v
  {
    match v
    case Arr(items) =>
      forall i | 0 <= i < |items| ensures AllInOrder(CanonItems(items)[i]) { CanonInOrder(items[i], depth + 1, lim); }
    case Obj(ms) =>
      var cs := CanonMembers(ms);
      SortInOrder(cs);
      forall i | 0 <= i < |ms| ensures AllInOrder(Sort(cs)[i].value) {
        var j := SortedFrom(cs, i);
        CanonInOrder(ms[j].value, depth + 1, lim);
      }
    case _ =>
  }

  /** A value and its canonical form have the same text. */
  lemma {:induction false} PrintCanon(v: Value, depth: nat, lim: Limits)
    requires WellFormed(v, depth, lim)
    ensures Print(Canon(v)) == Print(v)
    decreases v
  {
    match v
    case Arr(items) =>
      forall i | 0 <= i < |items|
        ensures Print(Canon(items[i])) == Print(items[i])
      {
        PrintCanon(items[i], depth + 1, lim);
      }
      assert PrintItems(CanonItems(items)) == PrintItems(items);
    case Obj(ms) =>
      forall i | 0 <= i < |ms|
        ensures Print(Canon(ms[i].value)) == Print(ms[i].value)
      {
        PrintCanon(ms[i].value, depth + 1, lim);
      }
      PrintCanonMembers(ms);
    case _ =>
  }

  lemma PrintCanonMembers(ms: seq<Member<Value>>)
    requires DistinctKeys(ms) && forall i | 0 <= i < |ms| :: Print(Canon(ms[i].value)) == Print(ms[i].value)
    ensures Sort(PrintMembers(Sort(CanonMembers(ms)))) == Sort(PrintMembers(ms))
  {
    hide Print, Canon, Sort, PrintMembers, CanonMembers, DistinctKeys;
    var cs, ps := CanonMembers(ms), PrintMembers(ms);
    SortedText(cs);
    assert PrintMembers(cs) == ps;
    SameKeysDistinct(ms, ps);
    SortInOrder(ps);
    SortSorted(Sort(ps));
  }

  lemma SameKeysDistinct<T, U>(a: seq<Member<T>>, b: seq<Member<U>>)
    requires DistinctKeys(a) && |a| == |b| && forall i | 0 <= i < |a| :: a[i].key == b[i].key
    ensures DistinctKeys(b)
  {}

  lemma DocumentParses(v: Value, lim: Limits)
    requires WellFormed(v, 0, lim)
    ensures ValueAt(Print(v), 0, 0, lim) == Done(Canon(v), |Print(v)|)
    ensures Print(v) != "" && Print(v)[0] != BOM
  {
    hide Canon, Print;
    FirstChar(v, 0, lim);
    PrintedParses(v, Print(v), 0, 0, lim);
  }

  /** Whatever text the parser accepts, its canonical form is no longer, is accepted under the same limits, parses
      back to the same value with members in key order, and is a fixed point of printing after parsing. */
  lemma RoundTrip(s: string, lim: Limits)
    requires Parse(s, lim).Ok?
    ensures var v := Parse(s, lim).value;
            && Bytes(Print(v)) <= Bytes(s)
            && Parse(Print(v), lim) == Ok(Canon(v))
            && AllInOrder(Canon(v))
            && Print(Canon(v)) == Print(v)
  {
    hide Print, Canon, AllInOrder, ValueAt;
    var r := ValueAt(s, 0, 0, lim);
    Accepted(s, 0, 0, lim);
    Pieces(s, 0, r.next, |s|);
    assert s[0..|s|] == s;
    DocumentParses(r.value, lim);
    CanonInOrder(r.value, 0, lim);
    PrintCanon(r.value, 0, lim);
  }

  // ---- values up to the order of members ----

  /** A value in which an object is what it should be: a map from keys to values. */
  datatype Shape = SNull | SBool(b: bool) | SNum(raw: string) | SStr(text: string) | SArr(items: seq<Shape>)
                 | SObj(members: map<string, Shape>)

  function Forget(v: Value): Shape
    decreases v
  {
    match v
    case Null => SNull
    case Bool(b) => SBool(b)
    case Num(raw) => SNum(raw)
    case Str(t) => SStr(t)
    case Arr(items) => SArr(ForgetItems(items))
    case Obj(ms) => SObj(ForgetMembers(ms))
  }

  function ForgetItems(items: seq<Value>): (r: seq<Shape>)
    ensures |r| == |items| && forall i | 0 <= i < |items| :: r[i] == Forget(items[i])
    decreases items
  {
    if items == [] then [] else [Forget(items[0])] + ForgetItems(items[1..])
  }

  function ForgetMembers(ms: seq<Member<Value>>): (r: map<string, Shape>)
    decreases ms
  {
    if ms == [] then map[] else ForgetMembers(ms[1..])[ms[0].key := Forget(ms[0].value)]
  }

  lemma {:induction false} ForgottenMembers(ms: seq<Member<Value>>)
    requires DistinctKeys(ms)
    ensures forall i | 0 <= i < |ms| ::
              ms[i].key in ForgetMembers(ms) && ForgetMembers(ms)[ms[i].key] == Forget(ms[i].value)
    ensures forall k | k in ForgetMembers(ms) :: exists i | 0 <= i < |ms| :: ms[i].key == k
    ensures |ForgetMembers(ms)| == |ms|
  {
    hide Forget;
    if ms != [] {
      ForgottenMembers(ms[1..]);
      forall i | 0 <= i < |ms|
        ensures ms[i].key in ForgetMembers(ms) && ForgetMembers(ms)[ms[i].key] == Forget(ms[i].value)
      {
        if i > 0 { assert ms[1..][i - 1] == ms[i]; }
      }
      forall k | k in ForgetMembers(ms) ensures exists i | 0 <= i < |ms| :: ms[i].key == k {
        if k == ms[0].key {
          assert ms[0].key == k;
        } else {
          var i :| 0 <= i < |ms[1..]| && ms[1..][i].key == k;
          assert ms[i + 1].key == k;
        }
      }
    }
  }

  /** Two lists in strict key order with the same members are the same list. */
  lemma {:induction false} OrderUnique<T>(a: seq<Member<T>>, b: seq<Member<T>>)
    requires InOrder(a) && InOrder(b) && |a| == |b|
    requires (forall i | 0 <= i < |a| :: a[i] in b) && (forall j | 0 <= j < |b| :: b[j] in a)
    ensures a == b
  {
    hide KeyLess;
    if a != [] {
      assert a[0] in b;
      assert b[0] in a;
      KeyOrder(a[0].key, b[0].key, "");
      KeyOrder(b[0].key, a[0].key, "");
      assert a[0] == b[0];
      forall i | 0 <= i < |a[1..]| ensures a[1..][i] in b[1..] {
        assert a[i + 1] in b;
        KeyOrder(a[0].key, a[i + 1].key, "");
        assert b == [b[0]] + b[1..];
      }
      forall j | 0 <= j < |b[1..]| ensures b[1..][j] in a[1..] {
        assert b[j + 1] in a;
        KeyOrder(b[0].key, b[j + 1].key, "");
        assert a == [a[0]] + a[1..];
      }
      OrderUnique(a[1..], b[1..]);
      assert a == [a[0]] + a[1..] && b == [b[0]] + b[1..];
    }
  }

  /** Values that differ only in the order of members have the same canonical form. */
  lemma {:induction false} SameShapeSameCanon(v: Value, w: Value, depth: nat, lim: Limits)
    requires WellFormed(v, depth, lim) && WellFormed(w, depth, lim) && Forget(v) == Forget(w)
    ensures Canon(v) == Canon(w)
    decreases v
  {
    match v
    case Arr(items) =>
      assert ForgetItems(items) == ForgetItems(w.items);
      forall i | 0 <= i < |items| ensures Canon(items[i]) == Canon(w.items[i]) {
        assert ForgetItems(items)[i] == ForgetItems(w.items)[i];
        SameShapeSameCanon(items[i], w.items[i], depth + 1, lim);
      }
      assert CanonItems(items) == CanonItems(w.items);
    case Obj(ms) =>
      var ns := w.members;
      ForgottenMembers(ms);
      ForgottenMembers(ns);
      forall i, j | 0 <= i < |ms| && 0 <= j < |ns| && ms[i].key == ns[j].key
        ensures Canon(ms[i].value) == Canon(ns[j].value)
      {
        SameShapeSameCanon(ms[i].value, ns[j].value, depth + 1, lim);
      }
      SameMembers(ms, ns);
    case _ =>
  }

  lemma SameMembers(ms: seq<Member<Value>>, ns: seq<Member<Value>>)
    requires DistinctKeys(ms) && DistinctKeys(ns) && ForgetMembers(ms) == ForgetMembers(ns)
    requires forall i, j | 0 <= i < |ms| && 0 <= j < |ns| && ms[i].key == ns[j].key ::
               Canon(ms[i].value) == Canon(ns[j].value)
    ensures Sort(CanonMembers(ms)) == Sort(CanonMembers(ns))
  {
    hide Canon, Forget, KeyLess, Sort, ForgetMembers, CanonMembers, DistinctKeys, InOrder;
    SameKeysDistinct(ms, CanonMembers(ms));
    SameKeysDistinct(ns, CanonMembers(ns));
    SortInOrder(CanonMembers(ms));
    SortInOrder(CanonMembers(ns));
    Covered(ms, ns);
    Covered(ns, ms);
    assert |ms| == |ns| by { ForgottenMembers(ms); ForgottenMembers(ns); }
    OrderUnique(Sort(CanonMembers(ms)), Sort(CanonMembers(ns)));
  }

  lemma Covered(ms: seq<Member<Value>>, ns: seq<Member<Value>>)
    requires DistinctKeys(ms) && DistinctKeys(ns) && ForgetMembers(ms) == ForgetMembers(ns)
    requires forall i, j | 0 <= i < |ms| && 0 <= j < |ns| && ms[i].key == ns[j].key ::
               Canon(ms[i].value) == Canon(ns[j].value)
    ensures forall k | 0 <= k < |ms| :: Sort(CanonMembers(ms))[k] in Sort(CanonMembers(ns))
  {
    hide Canon, Forget, KeyLess, Sort, ForgetMembers;
    ForgottenMembers(ms);
    ForgottenMembers(ns);
    var cs, ds := CanonMembers(ms), CanonMembers(ns);
    forall k | 0 <= k < |ms| ensures Sort(cs)[k] in Sort(ds) {
      var i := SortedFrom(cs, k);
      var j :| 0 <= j < |ns| && ns[j].key == ms[i].key;
      assert ds[j] == cs[i];
      assert ds[j] in multiset(ds);
      SortHas(ds);
      assert ds[j] in multiset(Sort(ds));
    }
  }

  lemma {:induction false} CanonShape(v: Value, depth: nat, lim: Limits)
    requires WellFormed(v, depth, lim)
    ensures Forget(Canon(v)) == Forget(v)
    decreases v
  {
    match v
    case Arr(items) =>
      forall i | 0 <= i < |items|
        ensures Forget(Canon(items[i])) == Forget(items[i])
      {
        CanonShape(items[i], depth + 1, lim);
      }
      assert ForgetItems(CanonItems(items)) == ForgetItems(items);
    case Obj(ms) =>
      forall i | 0 <= i < |ms|
        ensures Forget(Canon(ms[i].value)) == Forget(ms[i].value)
      {
        CanonShape(ms[i].value, depth + 1, lim);
      }
      SortedShape(ms);
    case _ =>
  }

  lemma SortedShape(ms: seq<Member<Value>>)
    requires DistinctKeys(ms) && forall i | 0 <= i < |ms| :: Forget(Canon(ms[i].value)) == Forget(ms[i].value)
    ensures ForgetMembers(Sort(CanonMembers(ms))) == ForgetMembers(ms)
  {
    hide Canon, Forget, KeyLess, Sort, ForgetMembers, CanonMembers, DistinctKeys, InOrder;
    var cs := CanonMembers(ms);
    var sorted := Sort(cs);
    SameKeysDistinct(ms, cs);
    SortInOrder(cs);
    InOrderIsDistinct(sorted);
    var a, b := ForgetMembers(sorted), ForgetMembers(ms);
    forall k | k in a ensures k in b && a[k] == b[k] {
      var i := IndexOf(sorted, k);
      var j := SortedFrom(cs, i);
      ForgottenAt(sorted, i);
      ForgottenAt(ms, j);
    }
    forall k | k in b ensures k in a {
      var i := IndexOf(ms, k);
      var j := SortedTo(cs, i);
      ForgottenAt(sorted, j);
    }
    assert a == b;
  }

  lemma IndexOf(ms: seq<Member<Value>>, k: string) returns (i: nat)
    requires DistinctKeys(ms) && k in ForgetMembers(ms)
    ensures i < |ms| && ms[i].key == k
  {
    ForgottenMembers(ms);
    i :| 0 <= i < |ms| && ms[i].key == k;
  }

  lemma ForgottenAt(ms: seq<Member<Value>>, i: nat)
    requires DistinctKeys(ms) && i < |ms|
    ensures ms[i].key in ForgetMembers(ms) && ForgetMembers(ms)[ms[i].key] == Forget(ms[i].value)
  {
    ForgottenMembers(ms);
  }

  lemma InOrderIsDistinct<T>(ms: seq<Member<T>>)
    requires InOrder(ms)
    ensures DistinctKeys(ms)
  {
    hide KeyLess;
    forall i, j | 0 <= i < j < |ms| ensures ms[i].key != ms[j].key { KeyOrder(ms[i].key, ms[j].key, ""); }
  }

  /** Two accepted values have the same canonical text, and so the same digest, exactly when they are equal up to the
      order of members. */
  lemma SameTextSameValue(v: Value, w: Value, lim: Limits)
    requires WellFormed(v, 0, lim) && WellFormed(w, 0, lim)
    ensures Print(v) == Print(w) <==> Forget(v) == Forget(w)
  {
    hide Canon, Print, Forget, ValueAt;
    if Print(v) == Print(w) {
      DocumentParses(v, lim);
      DocumentParses(w, lim);
      CanonShape(v, 0, lim);
      CanonShape(w, 0, lim);
    }
    if Forget(v) == Forget(w) {
      SameShapeSameCanon(v, w, 0, lim);
      PrintCanon(v, 0, lim);
      PrintCanon(w, 0, lim);
    }
  }

  /** The parser returns well-formed values only, so the laws hold of whatever it returns. */
  lemma ParsedIsWellFormed(s: string, lim: Limits)
    requires Parse(s, lim).Ok?
    ensures WellFormed(Parse(s, lim).value, 0, lim)
  {
    hide ValueAt, WellFormed;
    Accepted(s, 0, 0, lim);
  }
}
