/** The review queue over whole runs of the daemon: no run is starved by another one. */
module Fairness {
  import opened Basics
  import opened Ids
  import opened Records
  import opened Store
  import opened Detect
  import opened Protocol
  import opened Timers
  import opened Safety
  import opened Invariants
  import opened Clearing
  import opened TimersKeep
  import opened System
  import opened Guarantees
  import opened Punctual
  import Q = Queue
  import TB = TokenBucket

  // ---- what the pick means ----

  lemma {:induction false} EarliestMeans(items: seq<Review>)
    requires items != []
    ensures Q.Earliest(items).Some?
    ensures forall u | u in items :: !Q.Before(u, Q.Earliest(items).value)
  {
    hide Less, Q.Before;
    var pre, x := items[..|items| - 1], items[|items| - 1];
    assert items == pre + [x];
    Q.BeforeIsOrder(x, x, x);
    if pre != [] {
      EarliestMeans(pre);
      var e := Q.Earliest(pre).value;
      forall u | u in pre && Q.Before(x, e) ensures !Q.Before(u, x) { Q.BeforeIsOrder(u, x, e); }
    }
  }

  /** Going up from `c` and around, `z` comes strictly before `x`. */
  predicate Between(c: Id, z: Id, x: Id) {
    if Less(c, x) then Less(c, z) && Less(z, x) else Less(c, z) || Less(z, x)
  }

  lemma BetweenChains(y: Id, c: Id, z: Id, x: Id)
    requires y != x && c != x && Between(c, z, x) && (c == y || Between(y, c, x))
    ensures Between(y, z, x) && z != y
  {
    hide Less;
    LessTotal(y, x);
    LessTotal(c, x);
    LessTotal(c, y);
    LessTotal(y, z);
    LessTotal(z, x);
    LessTotal(c, z);
    OrderThree(y, c, z);
    OrderThree(y, c, x);
    OrderThree(c, z, x);
    OrderThree(y, z, x);
  }

  lemma OrderThree(a: Id, b: Id, c: Id)
    ensures Less(a, b) && Less(b, c) ==> Less(a, c)
    ensures Less(c, b) && Less(b, a) ==> Less(c, a)
    ensures Less(b, a) && Less(a, c) ==> Less(b, c)
    ensures Less(c, a) && Less(a, b) ==> Less(c, b)
    ensures Less(a, c) && Less(c, b) ==> Less(a, b)
    ensures Less(b, c) && Less(c, a) ==> Less(b, a)
  {
    if Less(a, b) && Less(b, c) { LessTransitive(a, b, c); }
    if Less(c, b) && Less(b, a) { LessTransitive(c, b, a); }
    if Less(b, a) && Less(a, c) { LessTransitive(b, a, c); }
    if Less(c, a) && Less(a, b) { LessTransitive(c, a, b); }
    if Less(a, c) && Less(c, b) { LessTransitive(a, c, b); }
    if Less(b, c) && Less(c, a) { LessTransitive(b, c, a); }
  }

  lemma PickGoesAround(level: seq<Review>, c: Id, u: Review)
    requires u in level && c != "" && c != u.run
    ensures Q.NextAfter(level, c).Some?
    ensures var v := Q.NextAfter(level, c).value; v.run == u.run || Between(c, v.run, u.run)
  {
    hide Less, Q.Earliest, Q.PastCursor;
    var past := Q.PastCursor(level, c);
    LessTotal(c, u.run);
    EarliestMeans(level);
    var v := Q.NextAfter(level, c);
    if past != [] {
      EarliestMeans(past);
      assert Q.Earliest(past).value in past;
      LessTotal(u.run, Q.Earliest(past).value.run);
    } else {
      LessTotal(u.run, Q.Earliest(level).value.run);
    }
  }

  /** Nothing graver than the review served is waiting, and within its run and level it is the oldest. */
  lemma ServedIsOldest(items: seq<Review>, cursors: map<nat, Id>)
    requires items != []
    ensures Q.NextOpen(items, cursors).Some?
    ensures var v := Q.NextOpen(items, cursors).value;
            && v in items
            && (forall u | u in items :: Q.Gravity(u.level) <= Q.Gravity(v.level))
            && (forall u | u in items && u.run == v.run && u.level == v.level :: v.createdSeq <= u.createdSeq)
  {
    hide Less, Q.Earliest;
    Q.BestIsThere(items);
    var rank := Q.BestRank(items);
    var level, cursor := Q.AtRank(items, rank), Q.CursorAt(cursors, rank);
    var past := Q.PastCursor(level, cursor);
    EarliestMeans(level);
    if past != [] { EarliestMeans(past); }
    var v := Q.NextOpen(items, cursors).value;
    forall u | u in items && u.run == v.run && u.level == v.level ensures v.createdSeq <= u.createdSeq {
      assert u in level;
      if past != [] && cursor != "" { assert v in past; assert u in past; }
      assert !Q.Before(u, v);
    }
  }

  // ---- the queue of a reachable state ----

  lemma {:induction false} OpenReviewsAll(db: Db, ids: seq<Id>)
    requires HasReviews(db, ids)
    ensures forall i | 0 <= i < |ids| && db.reviews[ids[i]].state == ROpen :: db.reviews[ids[i]] in OpenReviews(db, ids)
  {
    if ids != [] { OpenReviewsAll(db, ids[..|ids| - 1]); }
  }

  function Waiting(db: Db): (r: seq<Review>)
    ensures forall v :: v in r <==> exists id :: id in db.reviews && db.reviews[id] == v && v.state == ROpen
  {
    var ids := Ascending(db.reviews.Keys);
    assert forall i | 0 <= i < |ids| :: ids[i] in ids;
    OpenReviewsAll(db, ids);
    OpenReviews(db, ids)
  }

  // ---- services ----

  /** Step `a` hands review v to whoever claimed it. */
  ghost predicate Hands(cfg: Config, s: Sys, a: Action, v: Review) {
    && a.Ask? && a.q.ClaimReview? && Found(s.db, a.q.named) == Some(v) && s.now < v.dueMs
    && Step(cfg, s, a).db != s.db
  }

  /** ... as the next in turn. */
  ghost predicate Serves(cfg: Config, s: Sys, a: Action, v: Review) { Hands(cfg, s, a, v) && a.q.named.None? }

  /** ... by name; the holder's renewal of a lease is one of these. */
  ghost predicate Names(cfg: Config, s: Sys, a: Action, v: Review) { Hands(cfg, s, a, v) && a.q.named.Some? }

  lemma ClaimThisMoves(db: Db, host: HostState, now: Counter, p: Principal, v: Review, expected: Option<nat>)
    ensures var plan := ClaimThis(db, host, now, p, v, expected);
            plan.Commit? ==>
              plan.db.cursors == if now < v.dueMs then db.cursors[Q.Rank(v.level) := v.run] else db.cursors
  {
    hide Put, RunPolicy, Expire, ClaimedBy;
    forall kind, v ensures Put(db, now, kind, AReview(v)).cursors == db.cursors { PutFrame(db, now, kind, AReview(v)); }
  }

  lemma ClaimMoves(db: Db, host: HostState, now: Counter, p: Principal, named: Option<Id>, expected: Option<nat>)
    ensures var plan := Claim(db, host, now, p, named, expected);
            plan.Commit? ==>
              && Found(db, named).Some?
              && plan.db.cursors == (var v := Found(db, named).value;
                                     if now < v.dueMs then db.cursors[Q.Rank(v.level) := v.run] else db.cursors)
  {
    hide Found, ClaimThis;
    if Found(db, named).Some? { ClaimThisMoves(db, host, now, p, Found(db, named).value, expected); }
  }

  /** Only a claim moves a queue cursor, to the run it hands out. */
  lemma StepCursors(cfg: Config, s: Sys, a: Action)
    requires Inv(s.db)
    ensures Step(cfg, s, a).db.cursors != s.db.cursors ==>
              a.Ask? && a.q.ClaimReview? && Found(s.db, a.q.named).Some?
              && Hands(cfg, s, a, Found(s.db, a.q.named).value)
    ensures forall v | Hands(cfg, s, a, v) ::
              Step(cfg, s, a).db.cursors == s.db.cursors[Q.Rank(v.level) := v.run]
  {
    hide Inv, Step, Found;
    if a.Ask? { AskCursors(cfg, s, a); } else { OtherCursors(cfg, s, a); }
  }

  lemma OtherCursors(cfg: Config, s: Sys, a: Action)
    requires Inv(s.db) && !a.Ask?
    ensures Step(cfg, s, a).db.cursors == s.db.cursors
  {
    hide Inv, Moves, PauseSilent, ExpireAll, ReleaseAll, WakeAll, MaybeFinalize, ApplyReply, StoreReply, PassWindows,
         PauseAll, FinishAll, Restart;
    if a.Boot? {
      BootCursors(s, a.parts, a.minimumHead);
    } else if Rest(a) {
      StepMoves(cfg, s, a);
      MovesCursors(s.db, Step(cfg, s, a).db, s.now);
    }
  }

  lemma BegunCursors(db: Db, now: nat)
    ensures Begun(db, now).cursors == db.cursors
  {
    hide Put;
    var d := db.(hostEpoch := db.hostEpoch + 1);
    PutFrame(d, now, HostStarted, AHost(Host(Starting, d.hostEpoch)));
  }

  lemma ReadiedCursors(db: Db, now: nat)
    ensures Readied(db, now).cursors == db.cursors
  {
    hide Put;
    PutFrame(db, now, HostReady, AHost(Host(Ready, db.hostEpoch)));
  }

  lemma BehindCursors(db: Db, now: nat)
    ensures Behind(db, now).cursors == db.cursors
  {
    hide Put;
    PutFrame(db, now, HostFaulted, AHost(Host(Faulted, db.hostEpoch)));
  }

  lemma BootCursors(s: Sys, parts: nat, least: nat)
    ensures Restart(s, parts, least).db.cursors == s.db.cursors
  {
    hide PauseAll, ExpireAll, FinishAll, Put, Begun, Readied, Behind;
    BegunCursors(s.db, s.now);
    BehindCursors(Begun(s.db, s.now), s.now);
    var d := Recovered(Begun(s.db, s.now), s.now);
    ReadiedCursors(d, s.now);
  }

  lemma MovesCursors(db: Db, next: Db, now: nat)
    requires Moves(db, next, now)
    ensures next.cursors == db.cursors
  {}

  /** A request leaves the tables alone or makes its handler's cursors durable. */
  lemma AskTables(cfg: Config, s: Sys, a: Action)
    requires a.Ask?
    ensures var plan, next := Handle(cfg, s.db, s.host, s.now, a.p, a.q), Step(cfg, s, a).db;
            next == s.db || (plan.Commit? && next.cursors == plan.db.cursors)
  {
    hide Handle, RoleAllowed, TB.Admits, TB.After, AfterCreate;
    var plan := Handle(cfg, s.db, s.host, s.now, a.p, a.q);
    HandlersLeaveRows(cfg, s.db, s.host, s.now, a.p, a.q);
    if plan.Commit? {
      var key := (a.p.id, a.rid);
      var d := plan.db.(idempotency := plan.db.idempotency[key := (a.q, plan.out)]);
      NestedOutboxRollsBack(d, a.q, (key, (a.q, plan.out)), a.taken);
    }
  }

  lemma AskCursors(cfg: Config, s: Sys, a: Action)
    requires a.Ask?
    ensures !a.q.ClaimReview? ==> Step(cfg, s, a).db.cursors == s.db.cursors
    ensures a.q.ClaimReview? && Step(cfg, s, a).db != s.db ==>
              && Handle(cfg, s.db, s.host, s.now, a.p, a.q).Commit? && Found(s.db, a.q.named).Some?
              && Step(cfg, s, a).db.cursors == (var v := Found(s.db, a.q.named).value;
                   if s.now < v.dueMs then s.db.cursors[Q.Rank(v.level) := v.run] else s.db.cursors)
  {
    hide Handle, Step, Found;
    AskTables(cfg, s, a);
    HandlersLeaveRows(cfg, s.db, s.host, s.now, a.p, a.q);
    if a.q.ClaimReview? {
      HandleClaim(cfg, s.db, s.host, s.now, a.p, a.q);
      ClaimMoves(s.db, s.host.state, s.now, a.p, a.q.named, a.q.expectedRevision);
    }
  }

  lemma HandleClaim(cfg: Config, db: Db, host: Host, now: Counter, p: Principal, q: Request)
    requires q.ClaimReview?
    ensures Handle(cfg, db, host, now, p, q) == Claim(db, host.state, now, p, q.named, q.expectedRevision)
  {}

  // ---- fairness ----

  /** Going up from `y` and around, `z` comes before `x`; `y` itself does. */
  predicate OnArc(y: Id, z: Id, x: Id) { z == y || Between(y, z, x) }

  /** From state i to state j run x keeps an OPEN review of this level, and whatever is claimed by name at this level
      belongs to a run on the arc from y up to x. */
  ghost predicate Steady(cfg: Config, acts: seq<Action>, i: nat, j: nat, y: Id, x: Id, level: Level)
    requires j <= |acts|
  {
    && (forall k, v | i <= k < j && Names(cfg, Reached(cfg, COLD, acts[..k]), acts[k], v) && v.level == level ::
          OnArc(y, v.run, x))
    && (forall k | i <= k <= j :: Keeps(Reached(cfg, COLD, acts[..k]).db, x, level))
  }

  ghost predicate Keeps(db: Db, x: Id, level: Level) {
    && "" !in db.runs
    && exists id ::
         id in db.reviews && db.reviews[id].state == ROpen && db.reviews[id].run == x && db.reviews[id].level == level
  }

  ghost predicate ServedBetween(cfg: Config, acts: seq<Action>, i: nat, j: nat, x: Id, level: Level)
    requires j <= |acts|
  {
    exists k, v | i <= k < j :: Serves(cfg, Reached(cfg, COLD, acts[..k]), acts[k], v) && v.run == x && v.level == level
  }

  /** The run served last at a level, as state i has it. */
  function CursorOf(cfg: Config, acts: seq<Action>, i: nat, level: Level): Id
    requires i <= |acts|
  {
    Q.CursorAt(Reached(cfg, COLD, acts[..i]).db.cursors, Q.Rank(level))
  }

  lemma NotOnArc(y: Id, x: Id)
    requires y != x
    ensures !OnArc(y, x, x) && OnArc(y, y, x)
  {
    LessTotal(x, x);
    LessTotal(y, x);
  }

  /** A run off the arc from y up to x lies on the way from x up to y, so x no longer comes before y. */
  lemma OffArc(y: Id, z: Id, x: Id)
    requires x != y && !OnArc(y, z, x)
    ensures z != y && !Between(z, x, y)
  {
    hide Less;
    LessTotal(x, y);
    LessTotal(y, z);
    LessTotal(z, x);
    OrderThree(x, y, z);
  }

  lemma RankInjective(a: Level, b: Level)
    ensures Q.Rank(a) == Q.Rank(b) ==> a == b
  {}

  lemma ServesAround(cfg: Config, s: Sys, a: Action, v: Review, x: Id, level: Level, c: Id)
    requires Serves(cfg, s, a, v) && v.level == level && Keeps(s.db, x, level)
    requires Q.CursorAt(s.db.cursors, Q.Rank(level)) == c && c != "" && c != x
    ensures v.run == x || Between(c, v.run, x)
  {
    hide Less, Q.NextAfter, Q.Gravity, Step;
    var items := Waiting(s.db);
    var id :| id in s.db.reviews && s.db.reviews[id].state == ROpen && s.db.reviews[id].run == x
              && s.db.reviews[id].level == level;
    assert s.db.reviews[id] in items;
    var rank := Q.BestRank(items);
    Q.BestIsThere(items);
    assert Q.NextOpen(items, s.db.cursors) == Some(v);
    ServedIsOldest(items, s.db.cursors);
    assert Q.Rank(v.level) == rank by { BestIsLeast(items, v); }
    PickGoesAround(Q.AtRank(items, rank), c, s.db.reviews[id]);
  }

  lemma BestIsLeast(items: seq<Review>, v: Review)
    requires v in items && forall u | u in items :: Q.Gravity(u.level) <= Q.Gravity(v.level)
    ensures Q.Rank(v.level) == Q.BestRank(items)
  {
    Q.BestIsThere(items);
  }

  /** As long as x waits and is not served in turn, the cursor stays on the arc from y up to x. */
  lemma {:induction false} CursorStaysOnArc(cfg: Config, acts: seq<Action>, i: nat, j: nat, y: Id, x: Id, level: Level)
    requires i <= j <= |acts| && x != y && Steady(cfg, acts, i, j, y, x, level)
    requires CursorOf(cfg, acts, i, level) != "" && OnArc(y, CursorOf(cfg, acts, i, level), x)
    requires !ServedBetween(cfg, acts, i, j, x, level)
    ensures CursorOf(cfg, acts, j, level) != "" && OnArc(y, CursorOf(cfg, acts, j, level), x)
  {
    hide Inv, Step, Reached, Less, Between, Keeps, Found, Hands;
    if i < j {
      var k := j - 1;
      var s := Reached(cfg, COLD, acts[..k]);
      Always(cfg, acts[..k], k);
      assert acts[..k][..k] == acts[..k];
      StepOfRun(cfg, acts, k);
      StepCursors(cfg, s, acts[k]);
      NotServedEarlier(cfg, acts, i, k, j, x, level);
      CursorStaysOnArc(cfg, acts, i, k, y, x, level);
      if Step(cfg, s, acts[k]).db.cursors != s.db.cursors {
        var w, c := Found(s.db, acts[k].q.named).value, CursorOf(cfg, acts, k, level);
        assert Hands(cfg, s, acts[k], w);
        HandedRunIsNamed(cfg, s, acts[k], w, x, level);
        if w.level != level {
          RankInjective(w.level, level);
        } else if acts[k].q.named.None? {
          NotOnArc(y, x);
          ServesAround(cfg, s, acts[k], w, x, level, c);
          assert w.run != x;
          BetweenChains(y, c, w.run, x);
        } else {
          assert Names(cfg, s, acts[k], w);
        }
      }
    }
  }

  lemma NotServedEarlier(cfg: Config, acts: seq<Action>, i: nat, k: nat, j: nat, x: Id, level: Level)
    requires k <= j <= |acts| && !ServedBetween(cfg, acts, i, j, x, level)
    ensures !ServedBetween(cfg, acts, i, k, x, level)
  {
    hide Hands, Reached;
  }

  lemma HandedRunIsNamed(cfg: Config, s: Sys, a: Action, v: Review, x: Id, level: Level)
    requires Inv(s.db) && Hands(cfg, s, a, v) && Keeps(s.db, x, level)
    ensures v.run != ""
  {
    hide Step, Kept, PoliciesOk, RunsOk, StreamsOk, ChecksOk, ClearsOk;
    if a.q.named.None? { assert v in Waiting(s.db); }
  }

  /** The cursor just after a claim at a level. */
  lemma CursorAfter(cfg: Config, acts: seq<Action>, i: nat, v: Review)
    requires i < |acts| && Hands(cfg, Reached(cfg, COLD, acts[..i]), acts[i], v)
    ensures CursorOf(cfg, acts, i + 1, v.level) == v.run
  {
    hide Inv, Step, Reached, Found;
    Always(cfg, acts[..i], i);
    StepOfRun(cfg, acts, i);
    StepCursors(cfg, Reached(cfg, COLD, acts[..i]), acts[i]);
  }

  /** A service in turn at j, when x waits and the cursor is on the arc from y up to x: x itself, or a run past y on
      it. */
  lemma ServedOnTheWay(cfg: Config, acts: seq<Action>, j: nat, y: Id, x: Id, w: Review)
    requires j < |acts| && x != y && Keeps(Reached(cfg, COLD, acts[..j]).db, x, w.level)
    requires CursorOf(cfg, acts, j, w.level) != "" && OnArc(y, CursorOf(cfg, acts, j, w.level), x)
    requires Serves(cfg, Reached(cfg, COLD, acts[..j]), acts[j], w)
    ensures w.run == x || (Between(y, w.run, x) && w.run != y)
  {
    hide Step, Reached, Less, Between, Keeps, Found;
    var c := CursorOf(cfg, acts, j, w.level);
    NotOnArc(y, x);
    ServesAround(cfg, Reached(cfg, COLD, acts[..j]), acts[j], w, x, w.level, c);
    if w.run != x { BetweenChains(y, c, w.run, x); }
  }

  /** While run x keeps an OPEN review at a level, and claims by name at that level stay on the arc from run y up to
      x, y is not served twice at that level without x being served in between. */
  lemma Fair(cfg: Config, acts: seq<Action>, i: nat, j: nat, x: Id, v: Review, w: Review)
    requires i < j < |acts| && Steady(cfg, acts, i + 1, j, v.run, x, v.level)
    requires Serves(cfg, Reached(cfg, COLD, acts[..i]), acts[i], v)
             && Serves(cfg, Reached(cfg, COLD, acts[..j]), acts[j], w)
    requires v.run == w.run != x && v.level == w.level && v.run != ""
    ensures ServedBetween(cfg, acts, i + 1, j, x, v.level)
  {
    hide Inv, Step, Reached, Less, Between, Keeps, Found, Hands;
    if !ServedBetween(cfg, acts, i + 1, j, x, v.level) {
      CursorAfter(cfg, acts, i, v);
      CursorStaysOnArc(cfg, acts, i + 1, j, v.run, x, v.level);
      ServedOnTheWay(cfg, acts, j, v.run, x, w);
    }
  }

  /** The other direction: after a claim by name of a run off the arc from y up to x, it is y that comes first again.
      While y keeps an OPEN review, x is not served in turn before y is. */
  lemma Overtaken(cfg: Config, acts: seq<Action>, i: nat, j: nat, x: Id, y: Id, n: Review, w: Review)
    requires i < j < |acts| && x != y && !OnArc(y, n.run, x) && n.run != ""
    requires Names(cfg, Reached(cfg, COLD, acts[..i]), acts[i], n)
             && Serves(cfg, Reached(cfg, COLD, acts[..j]), acts[j], w)
    requires w.run == x && w.level == n.level && Steady(cfg, acts, i + 1, j, n.run, y, n.level)
    ensures ServedBetween(cfg, acts, i + 1, j, y, n.level)
  {
    hide Inv, Step, Reached, Less, Between, Keeps, Found, Hands;
    if !ServedBetween(cfg, acts, i + 1, j, y, n.level) {
      OffArc(y, n.run, x);
      CursorAfter(cfg, acts, i, n);
      CursorStaysOnArc(cfg, acts, i + 1, j, n.run, y, n.level);
      ServedOnTheWay(cfg, acts, j, n.run, y, w);
    }
  }

  /** Every run but x and y is on exactly one of the two arcs between them. */
  lemma ArcsComplement(y: Id, c: Id, x: Id)
    requires x != y
    ensures OnArc(y, c, x) <==> !OnArc(x, c, y)
  {
    hide Less;
    LessTotal(x, y);
    LessTotal(y, c);
    LessTotal(c, x);
    OrderThree(x, y, c);
  }

  /** Runs x and y keep OPEN reviews at a level from state i to state j, and none is claimed by name at that level. */
  ghost predicate BothWait(cfg: Config, acts: seq<Action>, i: nat, j: nat, x: Id, y: Id, level: Level)
    requires j <= |acts|
  {
    && (forall k, v | i <= k < j && Names(cfg, Reached(cfg, COLD, acts[..k]), acts[k], v) :: v.level != level)
    && (forall k | i <= k <= j :: Keeps(Reached(cfg, COLD, acts[..k]).db, x, level))
    && (forall k | i <= k <= j :: Keeps(Reached(cfg, COLD, acts[..k]).db, y, level))
  }

  lemma BothAreSteady(cfg: Config, acts: seq<Action>, i: nat, j: nat, x: Id, y: Id, level: Level)
    requires j <= |acts| && BothWait(cfg, acts, i, j, x, y, level)
    ensures Steady(cfg, acts, i, j, y, x, level) && Steady(cfg, acts, i, j, x, y, level)
  {
    hide Reached, Keeps, Names, OnArc;
  }

  /** Whatever other runs wait: of two that do, the one served first is x if and only if the cursor, where the waiting
      began, was on the arc from y up to x. */
  lemma FirstOfTwo(cfg: Config, acts: seq<Action>, i: nat, j: nat, x: Id, y: Id, w: Review)
    requires i <= j < |acts| && x != y && BothWait(cfg, acts, i, j, x, y, w.level)
    requires CursorOf(cfg, acts, i, w.level) != "" && Serves(cfg, Reached(cfg, COLD, acts[..j]), acts[j], w)
    requires w.run in {x, y}
    requires !ServedBetween(cfg, acts, i, j, x, w.level) && !ServedBetween(cfg, acts, i, j, y, w.level)
    ensures w.run == x <==> OnArc(y, CursorOf(cfg, acts, i, w.level), x)
  {
    hide Inv, Step, Reached, OnArc, Keeps, Found, Hands, Steady;
    var c := CursorOf(cfg, acts, i, w.level);
    ArcsComplement(y, c, x);
    BothAreSteady(cfg, acts, i, j, x, y, w.level);
    if OnArc(y, c, x) {
      CursorStaysOnArc(cfg, acts, i, j, y, x, w.level);
      ServedOnTheWay(cfg, acts, j, y, x, w);
    } else {
      CursorStaysOnArc(cfg, acts, i, j, x, y, w.level);
      ServedOnTheWay(cfg, acts, j, x, y, w);
    }
  }

  /** With two runs waiting at a level, which of them is next depends on the arc alone. */
  lemma ArcDecides(level: seq<Review>, c: Id, a: Review, b: Review)
    requires a in level && b in level && a.run != b.run && c != ""
    requires forall u | u in level :: u.run == a.run || u.run == b.run
    ensures Q.NextAfter(level, c).Some?
    ensures Q.NextAfter(level, c).value.run == a.run <==> OnArc(b.run, c, a.run)
  {
    hide Less, Between, Q.NextAfter;
    NotOnArc(b.run, a.run);
    if OnArc(b.run, c, a.run) {
      PickGoesAround(level, c, a);
      PickIsThere(level, c);
      var r := Q.NextAfter(level, c).value.run;
      if r != a.run { BetweenChains(b.run, c, r, a.run); }
    } else {
      OffArc(b.run, c, a.run);
      PickGoesAround(level, c, b);
    }
  }

  lemma PickIsThere(level: seq<Review>, c: Id)
    requires level != []
    ensures Q.NextAfter(level, c).Some? && Q.NextAfter(level, c).value in level
  {
    hide Less, Q.Earliest, Q.PastCursor;
    EarliestMeans(level);
    if Q.PastCursor(level, c) != [] { EarliestMeans(Q.PastCursor(level, c)); }
  }
}
