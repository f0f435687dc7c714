/** Reading the store at a cut (crates/watch/src/store.rs): one entity as it stood then, and lists read page by page. */
module Queries {
  import opened Basics
  import opened Ids
  import opened Records
  import opened Store

  // ---- pages ----

  /** Positions strictly increase and start above zero. */
  ghost predicate Rising<T>(items: seq<(nat, T)>) {
    && (forall i | 0 <= i < |items| :: items[i].0 > 0)
    && forall i, j | 0 <= i < j < |items| :: items[i].0 < items[j].0
  }

  function Beyond<T>(items: seq<(nat, T)>, after: nat): (r: seq<(nat, T)>)
    ensures |r| <= |items|
  {
    if items == [] then [] else
      Beyond(items[..|items| - 1], after) + if items[|items| - 1].0 > after then [items[|items| - 1]] else []
  }

  /** At most `limit` items past `after`, and where to go on if that left some out. */
  function Page<T>(items: seq<(nat, T)>, after: nat, limit: nat): (seq<(nat, T)>, Option<nat>)
    requires limit > 0
  {
    var rest := Beyond(items, after);
    if |rest| > limit then (rest[..limit], Some(rest[limit - 1].0)) else (rest, None)
  }

  lemma RisingPrefix<T>(items: seq<(nat, T)>, n: nat)
    requires Rising(items) && n < |items|
    ensures Rising(items[..n]) && forall i | 0 <= i < n :: items[i].0 < items[n].0
  {}

  lemma {:induction false} BeyondIsSuffix<T>(items: seq<(nat, T)>, after: nat) returns (k: nat)
    requires Rising(items)
    ensures k <= |items| && Beyond(items, after) == items[k..]
    ensures forall i | 0 <= i < k :: items[i].0 <= after
    ensures forall i | k <= i < |items| :: items[i].0 > after
  {
    hide Rising;
    if items == [] {
      k := 0;
    } else {
      var n := |items| - 1;
      RisingPrefix(items, n);
      k := BeyondIsSuffix(items[..n], after);
      SuffixGrows(items, after, n, k);
      if items[n].0 <= after { k := n + 1; }
    }
  }

  lemma SuffixGrows<T>(items: seq<(nat, T)>, after: nat, n: nat, k: nat)
    requires |items| == n + 1 && k <= n && Beyond(items[..n], after) == items[..n][k..]
    requires forall i | 0 <= i < n :: items[i].0 < items[n].0
    requires forall i | 0 <= i < k :: items[..n][i].0 <= after
    requires forall i | k <= i < n :: items[..n][i].0 > after
    ensures items[n].0 > after ==> Beyond(items, after) == items[k..]
    ensures items[n].0 <= after ==> Beyond(items, after) == [] == items[n + 1..]
    ensures forall i | 0 <= i < k :: items[i].0 <= after
    ensures forall i | k <= i < n :: items[i].0 > after
  {
    forall i | 0 <= i < n ensures items[i] == items[..n][i] {}
    if items[n].0 > after {
      assert items[..n][k..] + [items[n]] == items[k..];
    } else {
      forall i | 0 <= i < n ensures items[..n][i].0 <= after {}
      assert k == n;
    }
  }

  /** What a client gets by following `next` from page to page, never seeing more than `limit` at once. */
  function Chained<T>(items: seq<(nat, T)>, after: nat, limit: nat): seq<(nat, T)>
    requires Rising(items) && limit > 0
    decreases |Beyond(items, after)|
  {
    var (page, next) := Page(items, after, limit);
    if next.None? then page
    else
      FewerLeft(items, after, limit);
      page + Chained(items, next.value, limit)
  }

  lemma FewerLeft<T>(items: seq<(nat, T)>, after: nat, limit: nat)
    requires Rising(items) && limit > 0 && Page(items, after, limit).1.Some?
    ensures |Beyond(items, Page(items, after, limit).1.value)| < |Beyond(items, after)|
    ensures Beyond(items, after) == Page(items, after, limit).0 + Beyond(items, Page(items, after, limit).1.value)
  {
    var k := BeyondIsSuffix(items, after);
    assert items[k..][limit - 1] == items[k + limit - 1];
    var m := BeyondIsSuffix(items, items[k + limit - 1].0);
    assert items[k + limit].0 > items[k + limit - 1].0;
    assert m == k + limit;
    assert items[k..] == items[k..m] + items[m..];
  }

  /** Chained pages together are exactly the items past the start, each once and in order. */
  lemma {:induction false} ChainedIsAll<T>(items: seq<(nat, T)>, after: nat, limit: nat)
    requires Rising(items) && limit > 0
    ensures Chained(items, after, limit) == Beyond(items, after)
    ensures after == 0 ==> Chained(items, after, limit) == items
    decreases |Beyond(items, after)|
  {
    var next := Page(items, after, limit).1;
    if next.Some? {
      FewerLeft(items, after, limit);
      ChainedIsAll(items, next.value, limit);
    }
    var k := BeyondIsSuffix(items, after);
    assert after == 0 ==> k == 0 by { if items != [] { assert items[0].0 > 0; } }
  }

  // ---- the history against the log ----

  function ValueAt(audit: seq<Event>, e: Entity, id: Id): Option<Subject> {
    match e
    case Runs => if id in RunsOf(audit) then Some(ARun(RunsOf(audit)[id])) else None
    case Checks => if id in ChecksOf(audit) then Some(ACheck(ChecksOf(audit)[id])) else None
    case Reviews => if id in ReviewsOf(audit) then Some(AReview(ReviewsOf(audit)[id])) else None
  }

  ghost predicate About(ev: Event, e: Entity, id: Id) {
    match e
    case Runs => ev.value.ARun? && ev.value.run.id == id
    case Checks => ev.value.ACheck? && ev.value.check.id == id
    case Reviews => ev.value.AReview? && ev.value.review.id == id
  }

  lemma AboutRow(ev: Event, e: Entity, id: Id)
    ensures About(ev, e, id) <==> RowOf(ev) == [Row(e, id, ev.pos, ev.value)]
    ensures !About(ev, e, id) ==> forall r | r in RowOf(ev) :: !(r.entity == e && r.id == id)
  {}

  lemma LastEventAbout(audit: seq<Event>, e: Entity, id: Id) returns (i: nat)
    requires ValueAt(audit, e, id).Some?
    ensures i < |audit| && Some(audit[i].value) == ValueAt(audit, e, id) && About(audit[i], e, id)
    ensures forall j | i < j < |audit| :: !About(audit[j], e, id)
  {
    match e
    case Runs => i := LastEventOfRun(audit, id);
    case Checks => i := LastEventOfCheck(audit, id);
    case Reviews => i := LastEventOfReview(audit, id);
  }

  lemma {:induction false} MentionedIsThere(audit: seq<Event>, e: Entity, id: Id, k: nat)
    requires k < |audit| && About(audit[k], e, id)
    ensures ValueAt(audit, e, id).Some?
  {
    var n := |audit| - 1;
    if k < n { MentionedIsThere(audit[..n], e, id, k); }
  }

  lemma PrefixChained(audit: seq<Event>, n: nat)
    requires Store.Chained(audit) && n <= |audit|
    ensures Store.Chained(audit[..n])
  {
    forall i | 0 <= i < n ensures LinkedAt(audit[..n], i) {
      assert LinkedAt(audit, i);
      assert audit[..n][..i] == audit[..i];
    }
  }

  lemma RowPosition(ev: Event)
    ensures |RowOf(ev)| <= 1 && forall r | r in RowOf(ev) :: RowOf(ev) == [r] && r.pos == ev.pos
  {}

  lemma {:induction false} RowsHaveEvents(audit: seq<Event>)
    requires Store.Chained(audit)
    ensures forall r | r in HistoryOf(audit) :: 1 <= r.pos <= |audit| && RowOf(audit[r.pos - 1]) == [r]
  {
    if audit != [] {
      var n := |audit| - 1;
      assert LinkedAt(audit, n);
      assert audit[n].pos == n + 1;
      PrefixChained(audit, n);
      RowsHaveEvents(audit[..n]);
      RowPosition(audit[n]);
      hide RowOf, Store.Chained, LinkedAt;
      forall r | r in HistoryOf(audit) ensures 1 <= r.pos <= |audit| && RowOf(audit[r.pos - 1]) == [r] {
        if r in HistoryOf(audit[..n]) {
          assert audit[..n][r.pos - 1] == audit[r.pos - 1];
        } else {
          assert r in RowOf(audit[n]);
        }
      }
    }
  }

  lemma {:induction false} EventsHaveRows(audit: seq<Event>, k: nat, r: Row)
    requires k < |audit| && r in RowOf(audit[k])
    ensures r in HistoryOf(audit)
  {
    var n := |audit| - 1;
    if k < n { EventsHaveRows(audit[..n], k, r); }
  }

  lemma {:induction false} RowsRise(audit: seq<Event>)
    requires Store.Chained(audit)
    ensures forall i | 0 <= i < |HistoryOf(audit)| :: HistoryOf(audit)[i].pos > 0
    ensures forall i, j | 0 <= i < j < |HistoryOf(audit)| :: HistoryOf(audit)[i].pos < HistoryOf(audit)[j].pos
  {
    if audit != [] {
      var n := |audit| - 1;
      var h, last := HistoryOf(audit[..n]), RowOf(audit[n]);
      assert LinkedAt(audit, n);
      PrefixChained(audit, n);
      RowsRise(audit[..n]);
      RowsHaveEvents(audit[..n]);
      forall i | 0 <= i < |h| ensures h[i].pos <= n { assert h[i] in h; }
      assert |last| <= 1 && forall i | 0 <= i < |last| :: last[i].pos == n + 1;
    }
  }

  // ---- one entity at a cut ----

  /** `r` is the newest row of its entity at or before the cut. */
  ghost predicate Newest(history: seq<Row>, r: Row, cut: nat) {
    && r in history && r.pos <= cut
    && forall q | q in history && q.entity == r.entity && q.id == r.id && q.pos <= cut :: q.pos <= r.pos
  }

  lemma NewestIsReplayed(audit: seq<Event>, r: Row, cut: nat)
    requires Store.Chained(audit) && cut <= |audit| && Newest(HistoryOf(audit), r, cut)
    ensures ValueAt(audit[..cut], r.entity, r.id) == Some(r.body)
  {
    hide RowOf, ValueAt, HistoryOf;
    RowsHaveEvents(audit);
    var k, log := r.pos - 1, audit[..cut];
    assert log[k] == audit[k];
    AboutRow(audit[k], r.entity, r.id);
    RowPosition(audit[k]);
    assert RowOf(audit[k]) == [r] && LinkedAt(audit, k);
    MentionedIsThere(log, r.entity, r.id, k);
    var i := LastEventAbout(log, r.entity, r.id);
    AboutRow(log[i], r.entity, r.id);
    assert LinkedAt(audit, i);
    EventsHaveRows(audit, i, Row(r.entity, r.id, i + 1, log[i].value));
  }

  lemma ReplayedIsNewest(audit: seq<Event>, e: Entity, id: Id, cut: nat) returns (r: Row)
    requires Store.Chained(audit) && cut <= |audit| && ValueAt(audit[..cut], e, id).Some?
    ensures r.entity == e && r.id == id && Newest(HistoryOf(audit), r, cut)
  {
    RowsHaveEvents(audit);
    var log := audit[..cut];
    var i := LastEventAbout(log, e, id);
    AboutRow(audit[i], e, id);
    assert LinkedAt(audit, i);
    r := Row(e, id, i + 1, audit[i].value);
    EventsHaveRows(audit, i, r);
    forall q | q in HistoryOf(audit) && q.entity == e && q.id == id && q.pos <= cut ensures q.pos <= r.pos {
      assert RowOf(audit[q.pos - 1]) == [q] && LinkedAt(audit, q.pos - 1);
      AboutRow(audit[q.pos - 1], e, id);
      assert log[q.pos - 1] == audit[q.pos - 1];
    }
  }

  /** Looking an entity up at any cut gives what replaying the log up to that cut gives. */
  method EntityAt(audit: seq<Event>, history: seq<Row>, e: Entity, id: Id, cut: nat) returns (r: Option<Subject>)
    requires Store.Chained(audit) && history == HistoryOf(audit) && cut <= |audit|
    ensures r == ValueAt(audit[..cut], e, id)
  {
    var found: Option<Row> := None;
    var i := 0;
    while i < |history|
      invariant i <= |history|
      invariant found.Some? ==> found.value in history && found.value.entity == e && found.value.id == id
                                && found.value.pos <= cut
      invariant forall k | 0 <= k < i && history[k].entity == e && history[k].id == id && history[k].pos <= cut ::
                  found.Some? && history[k].pos <= found.value.pos
    {
      var q := history[i];
      if q.entity == e && q.id == id && q.pos <= cut && (found.None? || q.pos > found.value.pos) { found := Some(q); }
      i := i + 1;
    }
    hide ValueAt, HistoryOf, Store.Chained;
    if found.Some? {
      NewestIsReplayed(audit, found.value, cut);
      return Some(found.value.body);
    }
    if ValueAt(audit[..cut], e, id).Some? {
      var w := ReplayedIsNewest(audit, e, id, cut);
      assert false;
    }
    return None;
  }

  // ---- lists at a cut ----

  function RunOf(s: Subject): Option<Id> {
    match s
    case ACheck(c) => Some(c.run)
    case AReview(v) => Some(v.run)
    case _ => None
  }

  predicate Listed(history: seq<Row>, r: Row, e: Entity, run: Option<Id>, cut: nat) {
    && r.entity == e && r.pos <= cut
    && (forall q | q in history && q.entity == e && q.id == r.id && q.pos <= cut :: q.pos <= r.pos)
    && (run.Some? ==> RunOf(r.body) == run)
  }

  /** The rows among `rows` that the list at the cut shows, with their positions. */
  function Visible(rows: seq<Row>, history: seq<Row>, e: Entity, run: Option<Id>, cut: nat): seq<(nat, Row)> {
    if rows == [] then [] else
      var r := rows[|rows| - 1];
      Visible(rows[..|rows| - 1], history, e, run, cut) + if Listed(history, r, e, run, cut) then [(r.pos, r)] else []
  }

  lemma {:induction false} VisibleMeans(rows: seq<Row>, history: seq<Row>, e: Entity, run: Option<Id>, cut: nat,
                                        x: (nat, Row))
    ensures x in Visible(rows, history, e, run, cut)
            <==> x.1 in rows && x.0 == x.1.pos && Listed(history, x.1, e, run, cut)
  {
    hide Listed;
    if rows != [] {
      VisibleMeans(rows[..|rows| - 1], history, e, run, cut, x);
      assert rows == rows[..|rows| - 1] + [rows[|rows| - 1]];
    }
  }

  lemma {:induction false} VisibleRises(rows: seq<Row>, history: seq<Row>, e: Entity, run: Option<Id>, cut: nat)
    requires forall i | 0 <= i < |rows| :: rows[i].pos > 0
    requires forall i, j | 0 <= i < j < |rows| :: rows[i].pos < rows[j].pos
    ensures Rising(Visible(rows, history, e, run, cut))
  {
    hide Listed;
    if rows != [] {
      var pre := rows[..|rows| - 1];
      VisibleRises(pre, history, e, run, cut);
      var v := Visible(pre, history, e, run, cut);
      forall i | 0 <= i < |v| ensures v[i].0 < rows[|rows| - 1].pos {
        VisibleMeans(pre, history, e, run, cut, v[i]);
        assert v[i].1 in pre;
      }
    }
  }

  lemma BeyondNothing<T>(after: nat)
    ensures Beyond<T>([], after) == []
  {}

  lemma BeyondSnoc<T>(items: seq<(nat, T)>, x: (nat, T), after: nat)
    ensures Beyond(items + [x], after) == Beyond(items, after) + if x.0 > after then [x] else []
  {
    assert (items + [x])[..|items|] == items;
  }

  /** One page of the list. The pairs past `after` are gathered, then cut off at the limit. */
  method ListAt(history: seq<Row>, e: Entity, run: Option<Id>, after: nat, cut: nat, limit: nat)
    returns (items: seq<(nat, Row)>, next: Option<nat>)
    requires limit > 0
    ensures (items, next) == Page(Visible(history, history, e, run, cut), after, limit)
  {
    hide Listed, Beyond;
    assert Beyond<Row>([], after) == [] by { BeyondNothing<Row>(after); }
    items := [];
    var i := 0;
    while i < |history|
      invariant i <= |history|
      invariant items == Beyond(Visible(history[..i], history, e, run, cut), after)
    {
      assert history[..i + 1][..i] == history[..i];
      ghost var v := Visible(history[..i], history, e, run, cut);
      var r := history[i];
      assert v + [] == v;
      if Listed(history, r, e, run, cut) {
        BeyondSnoc(v, (r.pos, r), after);
        if r.pos > after { items := items + [(r.pos, r)]; }
      }
      i := i + 1;
    }
    assert history[..i] == history;
    next := None;
    if |items| > limit {
      items := items[..limit];
      next := Some(items[limit - 1].0);
    }
  }

  /** A check or a review of the run asked for, or anything if none is. */
  predicate Belongs(s: Subject, run: Option<Id>) {
    run.Some? ==> (s.ACheck? && s.check.run == run.value) || (s.AReview? && s.review.run == run.value)
  }

  lemma BelongsIs(s: Subject, run: Option<Id>)
    ensures Belongs(s, run) <==> (run.Some? ==> RunOf(s) == run)
  {}

  /** Following the pages of a list at a fixed cut shows every entity of the replayed prefix that matches exactly once,
      with its value at the cut, in the order in which the entities last changed. */
  lemma PagesShowTheCut(audit: seq<Event>, e: Entity, run: Option<Id>, cut: nat, limit: nat)
    requires Store.Chained(audit) && cut <= |audit| && limit > 0
    ensures Rising(Visible(HistoryOf(audit), HistoryOf(audit), e, run, cut))
    ensures var all := Chained(Visible(HistoryOf(audit), HistoryOf(audit), e, run, cut), 0, limit);
            && (forall i, j | 0 <= i < j < |all| :: all[i].0 < all[j].0 && all[i].1.id != all[j].1.id)
            && (forall x | x in all ::
                  ValueAt(audit[..cut], e, x.1.id) == Some(x.1.body) && Belongs(x.1.body, run))
            && (forall id | ValueAt(audit[..cut], e, id).Some? && Belongs(ValueAt(audit[..cut], e, id).value, run) ::
                  exists x :: x in all && x.1.id == id)
  {
    hide Listed, Visible, RunOf, ValueAt, HistoryOf, Store.Chained, Beyond, Page, Belongs;
    forall s: Subject ensures Belongs(s, run) <==> (run.Some? ==> RunOf(s) == run) { BelongsIs(s, run); }
    var h := HistoryOf(audit);
    RowsRise(audit);
    VisibleRises(h, h, e, run, cut);
    var all := Visible(h, h, e, run, cut);
    ChainedIsAll(all, 0, limit);
    forall x | x in all
      ensures ValueAt(audit[..cut], e, x.1.id) == Some(x.1.body) && Belongs(x.1.body, run) && x.0 == x.1.pos
    {
      VisibleMeans(h, h, e, run, cut, x);
      ListedIsNewest(h, x.1, e, run, cut);
      NewestIsReplayed(audit, x.1, cut);
    }
    forall i, j | 0 <= i < j < |all| ensures all[i].1.id != all[j].1.id { OneRowEach(h, e, run, cut, all[i], all[j]); }
    forall id | ValueAt(audit[..cut], e, id).Some? && Belongs(ValueAt(audit[..cut], e, id).value, run)
      ensures exists x :: x in all && x.1.id == id
    {
      ReplayedIsListed(audit, e, run, cut, id);
    }
  }

  lemma ListedIsNewest(h: seq<Row>, r: Row, e: Entity, run: Option<Id>, cut: nat)
    requires r in h && Listed(h, r, e, run, cut)
    ensures Newest(h, r, cut) && r.entity == e && (run.Some? ==> RunOf(r.body) == run)
  {}

  lemma OneRowEach(h: seq<Row>, e: Entity, run: Option<Id>, cut: nat, x: (nat, Row), y: (nat, Row))
    requires x in Visible(h, h, e, run, cut) && y in Visible(h, h, e, run, cut) && x.0 < y.0
    ensures x.1.id != y.1.id
  {
    VisibleMeans(h, h, e, run, cut, x);
    VisibleMeans(h, h, e, run, cut, y);
  }

  lemma ReplayedIsListed(audit: seq<Event>, e: Entity, run: Option<Id>, cut: nat, id: Id)
    requires Store.Chained(audit) && cut <= |audit| && ValueAt(audit[..cut], e, id).Some?
    requires run.Some? ==> RunOf(ValueAt(audit[..cut], e, id).value) == run
    ensures exists x :: x in Visible(HistoryOf(audit), HistoryOf(audit), e, run, cut) && x.1.id == id
  {
    var r := ReplayedIsNewest(audit, e, id, cut);
    NewestIsReplayed(audit, r, cut);
    VisibleMeans(HistoryOf(audit), HistoryOf(audit), e, run, cut, (r.pos, r));
  }

  lemma ListedIgnoresLater(h: seq<Row>, extra: seq<Row>, r: Row, e: Entity, run: Option<Id>, cut: nat)
    requires forall q | q in extra :: q.pos > cut
    ensures Listed(h + extra, r, e, run, cut) == Listed(h, r, e, run, cut)
  {}

  lemma {:induction false} VisibleIgnoresLater(rows: seq<Row>, h: seq<Row>, extra: seq<Row>, e: Entity,
                                               run: Option<Id>, cut: nat)
    requires forall q | q in extra :: q.pos > cut
    ensures Visible(rows, h + extra, e, run, cut) == Visible(rows, h, e, run, cut)
  {
    hide Listed;
    if rows != [] {
      VisibleIgnoresLater(rows[..|rows| - 1], h, extra, e, run, cut);
      ListedIgnoresLater(h, extra, rows[|rows| - 1], e, run, cut);
    }
  }

  lemma {:induction false} LaterRowsUnseen(h: seq<Row>, extra: seq<Row>, all: seq<Row>, e: Entity, run: Option<Id>,
                                           cut: nat)
    requires forall q | q in extra :: q.pos > cut
    ensures Visible(h + extra, all, e, run, cut) == Visible(h, all, e, run, cut)
  {
    if extra == [] {
      assert h + extra == h;
    } else {
      var rows := h + extra;
      assert rows[..|rows| - 1] == h + extra[..|extra| - 1];
      LaterRowsUnseen(h, extra[..|extra| - 1], all, e, run, cut);
      assert extra[|extra| - 1] in extra;
    }
  }

  lemma {:induction false} HistoryGrows(audit: seq<Event>, later: seq<Event>) returns (extra: seq<Row>)
    requires audit <= later && Store.Chained(later)
    ensures HistoryOf(later) == HistoryOf(audit) + extra && forall q | q in extra :: q.pos > |audit|
    decreases |later|
  {
    hide RowOf;
    if |later| == |audit| {
      assert later == audit;
      extra := [];
    } else {
      var n := |later| - 1;
      PrefixChained(later, n);
      assert audit <= later[..n];
      var before := HistoryGrows(audit, later[..n]);
      extra := before + RowOf(later[n]);
      assert HistoryOf(later) == HistoryOf(later[..n]) + RowOf(later[n]);
      assert later[n].pos == n + 1 by { assert LinkedAt(later, n); }
      RowPosition(later[n]);
    }
  }

  /** A list at a cut does not move while the log grows, so pages of it fetched at different times fit together. */
  lemma ListIsFixed(audit: seq<Event>, later: seq<Event>, e: Entity, run: Option<Id>, cut: nat)
    requires audit <= later && Store.Chained(later) && cut <= |audit|
    ensures Visible(HistoryOf(later), HistoryOf(later), e, run, cut)
            == Visible(HistoryOf(audit), HistoryOf(audit), e, run, cut)
  {
    var extra := HistoryGrows(audit, later);
    LaterRowsUnseen(HistoryOf(audit), extra, HistoryOf(later), e, run, cut);
    VisibleIgnoresLater(HistoryOf(audit), HistoryOf(audit), extra, e, run, cut);
  }

  // ---- the log itself, in pages ----

  function Numbered(events: seq<Event>): (r: seq<(nat, Event)>)
    ensures |r| == |events|
  {
    seq(|events|, i requires 0 <= i < |events| => (events[i].pos, events[i]))
  }

  method EventsPage(audit: seq<Event>, after: nat, cut: nat, limit: nat)
    returns (items: seq<(nat, Event)>, next: Option<nat>)
    requires Store.Chained(audit) && cut <= |audit| && limit > 0
    ensures (items, next) == Page(Numbered(audit[..cut]), after, limit)
  {
    hide Beyond, Rising, Numbered, Store.Chained;
    var all := Numbered(audit[..cut]);
    NumberedRises(audit, cut);
    var k := BeyondIsSuffix(all, after);
    var i := if after < cut then after else cut;
    assert k < cut ==> all[k].0 == k + 1;
    assert i < cut ==> all[i].0 == i + 1;
    assert i == k;
    items, next := [], None;
    while i < cut && |items| < limit
      invariant k <= i <= cut && |items| <= limit && items == all[k..i]
    {
      assert all[i] == (audit[i].pos, audit[i]) && all[k..i + 1] == all[k..i] + [all[i]];
      items := items + [(audit[i].pos, audit[i])];
      i := i + 1;
    }
    assert all[k..][..|items|] == items;
    assert i == cut ==> items == all[k..];
    assert i < cut ==> |all[k..]| > limit;
    if i < cut { next := Some(items[|items| - 1].0); }
  }

  lemma NumberedRises(audit: seq<Event>, cut: nat)
    requires Store.Chained(audit) && cut <= |audit|
    ensures Rising(Numbered(audit[..cut]))
    ensures forall i | 0 <= i < cut :: Numbered(audit[..cut])[i] == (i + 1, audit[i]) && audit[i].pos == i + 1
  {
    forall i | 0 <= i < cut ensures Numbered(audit[..cut])[i] == (i + 1, audit[i]) && audit[i].pos == i + 1 {
      assert LinkedAt(audit, i);
    }
  }

  /** Reading the events page by page gives back the log up to the cut. */
  lemma PagesShowTheLog(audit: seq<Event>, cut: nat, limit: nat)
    requires Store.Chained(audit) && cut <= |audit| && limit > 0
    ensures Rising(Numbered(audit[..cut])) && Chained(Numbered(audit[..cut]), 0, limit) == Numbered(audit[..cut])
  {
    NumberedRises(audit, cut);
    ChainedIsAll(Numbered(audit[..cut]), 0, limit);
  }
}
