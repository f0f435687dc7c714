/** Which open review a claim without an id gets (crates/watch/src/methods.rs, `next_open_review`):
    highest level first, runs in turn within a level, oldest first within a run. */
module Queue {
  import opened Basics
  import opened Ids
  import opened Records

  /** How grave a level is. */
  function Gravity(l: Level): nat { match l case Info => 0 case Warning => 1 case Critical => 2 }

  function Rank(l: Level): nat { match l case Critical => 0 case Warning => 1 case Info => 2 }

  /** The order `sort_by_key` puts reviews of one level in. */
  predicate Before(a: Review, b: Review) {
    Less(a.run, b.run) || (a.run == b.run && a.createdSeq < b.createdSeq)
  }

  /** The first of a stable sort by (run, createdSeq). */
  function Earliest(items: seq<Review>): (r: Option<Review>)
    ensures r.Some? <==> items != []
    ensures r.Some? ==> r.value in items
  {
    if items == [] then None else
      var e, x := Earliest(items[..|items| - 1]), items[|items| - 1];
      if e.None? || Before(x, e.value) then Some(x) else e
  }

  function BestRank(items: seq<Review>): nat
    requires items != []
  {
    var r := Rank(items[|items| - 1].level);
    if |items| == 1 then r else Min(BestRank(items[..|items| - 1]), r)
  }

  function AtRank(items: seq<Review>, rank: nat): (r: seq<Review>)
    ensures forall v :: v in r <==> v in items && Rank(v.level) == rank
  {
    if items == [] then [] else
      AtRank(items[..|items| - 1], rank) +
      if Rank(items[|items| - 1].level) == rank then [items[|items| - 1]] else []
  }

  function PastCursor(items: seq<Review>, cursor: Id): (r: seq<Review>)
    ensures forall v :: v in r <==> v in items && Less(cursor, v.run)
  {
    if items == [] then [] else
      PastCursor(items[..|items| - 1], cursor) +
      if Less(cursor, items[|items| - 1].run) then [items[|items| - 1]] else []
  }

  /** The next review of one level after the run served last. */
  function NextAfter(items: seq<Review>, cursor: Id): Option<Review> {
    if cursor != "" && PastCursor(items, cursor) != [] then Earliest(PastCursor(items, cursor)) else Earliest(items)
  }

  function CursorAt(cursors: map<nat, Id>, rank: nat): Id { if rank in cursors then cursors[rank] else "" }

  /** `items` are the OPEN reviews in id order. */
  function NextOpen(items: seq<Review>, cursors: map<nat, Id>): (r: Option<Review>)
    ensures r.Some? ==> r.value in items
  {
    if items == [] then None else
      var rank := BestRank(items);
      NextAfter(AtRank(items, rank), CursorAt(cursors, rank))
  }

  // ---- the queue as the daemon works it out: filter, sort, look ----

  function Insert(s: seq<Review>, x: Review): seq<Review> {
    if s == [] then [x] else if Before(x, s[0]) then [x] + s else [s[0]] + Insert(s[1..], x)
  }

  /** A stable sort by (run, createdSeq). */
  function SortByRun(items: seq<Review>): seq<Review> {
    if items == [] then [] else Insert(SortByRun(items[..|items| - 1]), items[|items| - 1])
  }

  function FirstPast(s: seq<Review>, cursor: Id): Option<Review> {
    if s == [] then None else if Less(cursor, s[0].run) then Some(s[0]) else FirstPast(s[1..], cursor)
  }

  ghost predicate InOrder(s: seq<Review>) { forall i, j | 0 <= i < j < |s| :: !Before(s[j], s[i]) }

  lemma BeforeIsOrder(a: Review, b: Review, c: Review)
    ensures Before(a, b) && Before(b, c) ==> Before(a, c)
    ensures Before(a, b) && !Before(c, b) ==> Before(a, c)
    ensures !(Before(a, b) && Before(b, a))
  {
    LessTotal(a.run, b.run);
    LessTotal(b.run, c.run);
    LessTotal(a.run, c.run);
    if Less(a.run, b.run) && Less(b.run, c.run) { LessTransitive(a.run, b.run, c.run); }
  }

  lemma {:induction false} InsertKeepsOrder(s: seq<Review>, x: Review)
    requires InOrder(s)
    ensures InOrder(Insert(s, x))
    ensures forall v :: v in Insert(s, x) <==> v in s || v == x
  {
    if s != [] {
      if Before(x, s[0]) {
        forall j | 0 <= j < |s| ensures !Before(s[j], x) {
          BeforeIsOrder(s[j], x, s[0]);
          BeforeIsOrder(x, s[0], s[j]);
        }
      } else {
        InsertKeepsOrder(s[1..], x);
        assert s == [s[0]] + s[1..];
        var rest := Insert(s[1..], x);
        forall j | 0 <= j < |rest| ensures !Before(rest[j], s[0]) { assert rest[j] in rest; }
      }
    }
  }

  lemma {:induction false} FirstPastIn(s: seq<Review>, cursor: Id)
    ensures FirstPast(s, cursor).Some? ==>
              FirstPast(s, cursor).value in s && Less(cursor, FirstPast(s, cursor).value.run)
  {
    if s != [] && !Less(cursor, s[0].run) { FirstPastIn(s[1..], cursor); }
  }

  lemma {:induction false} InsertMovesFirst(s: seq<Review>, x: Review, cursor: Id)
    requires InOrder(s)
    ensures FirstPast(Insert(s, x), cursor)
            == (if Less(cursor, x.run) && (FirstPast(s, cursor).None? || Before(x, FirstPast(s, cursor).value))
                then Some(x)
                else FirstPast(s, cursor))
  {
    if s != [] {
      if Before(x, s[0]) {
        assert ([x] + s)[1..] == s;
        FirstPastIn(s, cursor);
        if FirstPast(s, cursor).Some? {
          var v := FirstPast(s, cursor).value;
          assert !Before(v, s[0]) by { BeforeIsOrder(v, v, v); }
          BeforeIsOrder(x, s[0], v);
        }
      } else {
        assert ([s[0]] + Insert(s[1..], x))[1..] == Insert(s[1..], x);
        InsertMovesFirst(s[1..], x, cursor);
      }
    }
  }

  lemma {:induction false} SortInOrder(items: seq<Review>)
    ensures InOrder(SortByRun(items))
    ensures forall v :: v in SortByRun(items) <==> v in items
  {
    hide Less, Before;
    if items != [] {
      SortInOrder(items[..|items| - 1]);
      InsertKeepsOrder(SortByRun(items[..|items| - 1]), items[|items| - 1]);
      assert items == items[..|items| - 1] + [items[|items| - 1]];
    }
  }

  lemma PastGrows(items: seq<Review>, x: Review, cursor: Id)
    ensures Earliest(PastCursor(items + [x], cursor))
            == (var e := Earliest(PastCursor(items, cursor));
                if Less(cursor, x.run) && (e.None? || Before(x, e.value)) then Some(x) else e)
  {
    hide Less, Before, Earliest, PastCursor;
    PastSnoc(items, x, cursor);
    EarliestSnoc(PastCursor(items, cursor), x);
    assert PastCursor(items, cursor) + [] == PastCursor(items, cursor);
  }

  lemma PastSnoc(items: seq<Review>, x: Review, cursor: Id)
    ensures PastCursor(items + [x], cursor) == PastCursor(items, cursor) + if Less(cursor, x.run) then [x] else []
  {
    hide Less;
    assert (items + [x])[..|items|] == items;
  }

  lemma EarliestSnoc(s: seq<Review>, x: Review)
    ensures Earliest(s + [x]) == if Earliest(s).None? || Before(x, Earliest(s).value) then Some(x) else Earliest(s)
  {
    hide Before;
    assert (s + [x])[..|s|] == s;
  }

  /** The first of the sorted queue past the cursor is the earliest there is. */
  lemma {:induction false} SortPicksEarliest(items: seq<Review>, cursor: Id)
    ensures FirstPast(SortByRun(items), cursor) == Earliest(PastCursor(items, cursor))
  {
    hide Less, Before, InOrder, PastCursor, Earliest, Insert, FirstPast;
    if items == [] {
      NothingPast(cursor);
    } else {
      var pre, x := items[..|items| - 1], items[|items| - 1];
      assert items == pre + [x];
      SortPicksEarliest(pre, cursor);
      SortInOrder(pre);
      InsertMovesFirst(SortByRun(pre), x, cursor);
      PastGrows(pre, x, cursor);
    }
  }

  lemma NothingPast(cursor: Id)
    ensures FirstPast([], cursor) == None == Earliest(PastCursor([], cursor))
  {}

  lemma {:induction false} SortedHead(items: seq<Review>)
    requires items != []
    ensures SortByRun(items) != [] && Earliest(items) == Some(SortByRun(items)[0])
  {
    hide Less, Before;
    if |items| > 1 { SortedHead(items[..|items| - 1]); }
  }

  method LevelToServe(items: seq<Review>) returns (best: nat, level: seq<Review>)
    requires items != []
    ensures best == BestRank(items) && level == AtRank(items, best)
  {
    hide Rank;
    var i := 1;
    best := Rank(items[0].level);
    while i < |items|
      invariant 1 <= i <= |items| && best == BestRank(items[..i])
    {
      assert items[..i + 1][..i] == items[..i];
      best := Min(best, Rank(items[i].level));
      i := i + 1;
    }
    assert items[..i] == items;
    level, i := [], 0;
    while i < |items|
      invariant i <= |items| && level == AtRank(items[..i], best)
    {
      assert items[..i + 1][..i] == items[..i];
      if Rank(items[i].level) == best { level := level + [items[i]]; }
      i := i + 1;
    }
    assert items[..i] == items;
  }

  method Pick(items: seq<Review>, cursors: map<nat, Id>) returns (r: Option<Review>)
    ensures r == NextOpen(items, cursors)
  {
    hide Less, Before, Rank, BestRank, AtRank, SortByRun;
    if items == [] { return None; }
    var best, level := LevelToServe(items);
    BestIsThere(items);
    var cursor, sorted := CursorAt(cursors, best), SortByRun(level);
    SortedHead(level);
    if cursor == "" { return Some(sorted[0]); }
    FirstPastPicks(level, cursor);
    var i := 0;
    while i < |sorted| && !Less(cursor, sorted[i].run)
      invariant i <= |sorted| && FirstPast(sorted[i..], cursor) == FirstPast(sorted, cursor)
    {
      i := i + 1;
    }
    return Some(sorted[if i < |sorted| then i else 0]);
  }

  lemma FirstPastPicks(level: seq<Review>, cursor: Id)
    requires level != [] && cursor != ""
    ensures NextAfter(level, cursor)
            == if FirstPast(SortByRun(level), cursor).Some? then FirstPast(SortByRun(level), cursor)
                else Earliest(level)
  {
    hide Less, Before, Earliest;
    SortPicksEarliest(level, cursor);
    EarliestExists(PastCursor(level, cursor));
  }

  lemma EarliestExists(items: seq<Review>)
    ensures Earliest(items).Some? <==> items != []
  {}

  lemma {:induction false} BestIsThere(items: seq<Review>)
    requires items != []
    ensures exists v :: v in items && Rank(v.level) == BestRank(items)
    ensures AtRank(items, BestRank(items)) != []
    ensures forall v | v in items :: BestRank(items) <= Rank(v.level)
  {
    var last := items[|items| - 1];
    if |items| > 1 { BestIsThere(items[..|items| - 1]); }
    assert items == items[..|items| - 1] + [last];
    if Rank(last.level) == BestRank(items) { assert last in items; }
    var v :| v in items && Rank(v.level) == BestRank(items);
    assert v in AtRank(items, BestRank(items));
  }
}
