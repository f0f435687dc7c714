/** Runs of the daemon, step by step from an empty store, that show where a promise ends. */
module Witness {
  import opened Basics
  import opened Ids
  import opened Records
  import opened Store
  import opened Detect
  import opened Protocol
  import opened Timers
  import opened System
  import opened Guarantees
  import opened Punctual
  import opened Lifetimes
  import opened Fairness
  import opened Invariants
  import opened Bundle
  import opened Proofs
  import opened Script
  import Q = Queue

  // ---- a claim by name off the arc ----

  const A: Id := "a"
  const B: Id := "b"
  const C: Id := "c"

  lemma Letters()
    ensures A != B && B != C && A != C && Less(A, B) && Less(A, C) && Less(B, C) && !Less(C, A) && !Less(C, B)
            && !Less(C, C)
  {
    assert A[0] != B[0] && B[0] != C[0] && A[0] != C[0];
  }

  /** The runs a < b < c are opened, and each has its observation. */
  const OPENED: seq<Action> :=
    [Boot(3, 0)] + [Activation(10)] + [Opening("2", A, 10)] + [Opening("3", B, 10)] + [Opening("4", C, 10)]
  const TOLD: seq<Action> := OPENED + [Telling("5", A)] + [Telling("6", B)] + [Telling("7", C)]

  /** Four checks are held: two of a, one of b, one of c. */
  const HELD1: seq<Action> := TOLD + Holding("r1", A, 10)
  const HELD2: seq<Action> := HELD1 + Holding("r2", A, 10)
  const HELD3: seq<Action> := HELD2 + Holding("r3", B, 10)
  const WAITING: seq<Action> := HELD3 + Holding("r4", C, 10)

  function At(runs: set<Id>, told: set<Id>, used: seq<Id>): Scene {
    Scene([FirstPolicy(10)], runs, told, map[], map[], used)
  }

  lemma OpenedRuns()
    ensures Standing(Reached(CFG, COLD, OPENED), At({A, B, C}, {}, ["1", "2", "3", "4"]))
  {
    hide Step, Reached, Standing, FirstPolicy;
    Letters();
    var s1 := [Boot(3, 0)] + [Activation(10)];
    var s2 := s1 + [Opening("2", A, 10)];
    var s3 := s2 + [Opening("3", B, 10)];
    AfterStart(10);
    AfterOpening(s1, 10, At({}, {}, ["1"]), "2", A);
    assert {} + {A} == {A} && ["1"] + ["2"] == ["1", "2"] && |{A}| == 1;
    AfterOpening(s2, 10, At({A}, {}, ["1", "2"]), "3", B);
    assert {A} + {B} == {A, B} && ["1", "2"] + ["3"] == ["1", "2", "3"] && |{A, B}| == 2;
    AfterOpening(s3, 10, At({A, B}, {}, ["1", "2", "3"]), "4", C);
    assert {A, B} + {C} == {A, B, C} && ["1", "2", "3"] + ["4"] == ["1", "2", "3", "4"];
  }

  const ASKED: seq<Id> := ["1", "2", "3", "4", "5", "6", "7"]

  lemma ToldRuns()
    ensures Standing(Reached(CFG, COLD, TOLD), At({A, B, C}, {A, B, C}, ASKED))
  {
    hide Step, Reached, Standing, FirstPolicy;
    Letters();
    var abc, u := {A, B, C}, ["1", "2", "3", "4"];
    var s5 := OPENED + [Telling("5", A)];
    var s6 := s5 + [Telling("6", B)];
    OpenedRuns();
    AfterTelling(OPENED, 10, At(abc, {}, u), "5", A);
    assert {} + {A} == {A};
    AfterTelling(s5, 10, At(abc, {A}, u + ["5"]), "6", B);
    assert {A} + {B} == {A, B};
    AfterTelling(s6, 10, At(abc, {A, B}, u + ["5"] + ["6"]), "7", C);
    assert {A, B} + {C} == abc && u + ["5"] + ["6"] + ["7"] == ASKED;
  }

  /** Two reviews of a, one of b and one of c, of which those in `taken` are claimed and the others wait. */
  ghost predicate Four(reviews: map<Id, Review>, taken: set<Id>) {
    && reviews.Keys == {"wth_r1", "wth_r2", "wth_r3", "wth_r4"}
    && (forall id | id in reviews :: reviews[id].id == id && reviews[id].level == Warning && reviews[id].dueMs == 10
                                     && reviews[id].state == if id in taken then Claimed else ROpen)
    && reviews["wth_r1"].run == A && reviews["wth_r2"].run == A && reviews["wth_r3"].run == B
    && reviews["wth_r4"].run == C
  }

  lemma FourReviews(r1: Review, r2: Review, r3: Review, r4: Review) returns (reviews: map<Id, Review>)
    requires r1.id == "wth_r1" && r2.id == "wth_r2" && r3.id == "wth_r3" && r4.id == "wth_r4"
    requires forall v | v in [r1, r2, r3, r4] :: v.level == Warning && v.dueMs == 10 && v.state == ROpen
    requires r1.run == A && r2.run == A && r3.run == B && r4.run == C
    ensures reviews == map[r1.id := r1][r2.id := r2][r3.id := r3][r4.id := r4] && Four(reviews, {})
  {
    reviews := map[r1.id := r1][r2.id := r2][r3.id := r3][r4.id := r4];
    assert r1 in [r1, r2, r3, r4] && r2 in [r1, r2, r3, r4] && r3 in [r1, r2, r3, r4] && r4 in [r1, r2, r3, r4];
  }

  function With(reviews: map<Id, Review>, cursors: map<nat, Id>, used: seq<Id>): Scene {
    At({A, B, C}, {A, B, C}, used).(reviews := reviews, cursors := cursors)
  }

  const U1: seq<Id> := ASKED + ["r1"]
  const U2: seq<Id> := U1 + ["r2"]
  const U3: seq<Id> := U2 + ["r3"]
  const USED: seq<Id> := U3 + ["r4"]

  lemma TwoHeld() returns (v1: Review, v2: Review)
    ensures v1.id == "wth_r1" && v1.run == A && v1.state == ROpen && v1.level == Warning && v1.dueMs == 10
    ensures v2.id == "wth_r2" && v2.run == A && v2.state == ROpen && v2.level == Warning && v2.dueMs == 10
    ensures Standing(Reached(CFG, COLD, HELD2), With(map[v1.id := v1][v2.id := v2], map[], U2))
  {
    hide Step, Reached, Standing, FirstPolicy, Holding;
    ToldRuns();
    v1 := HeldAfter(TOLD, With(map[], map[], ASKED), "r1", A, 10);
    v2 := HeldAfter(HELD1, With(map[v1.id := v1], map[], U1), "r2", A, 10);
  }

  lemma HeldReviews() returns (reviews: map<Id, Review>)
    ensures Four(reviews, {}) && Standing(Reached(CFG, COLD, WAITING), With(reviews, map[], USED))
  {
    hide Step, Reached, Standing, FirstPolicy, Holding, Four;
    var v1, v2 := TwoHeld();
    var m2 := map[v1.id := v1][v2.id := v2];
    var v3 := HeldAfter(HELD2, With(m2, map[], U2), "r3", B, 10);
    var m3 := m2[v3.id := v3];
    var v4 := HeldAfter(HELD3, With(m3, map[], U3), "r4", C, 10);
    reviews := FourReviews(v1, v2, v3, v4);
  }

  lemma {:induction false} NonePast(level: seq<Review>, c: Id)
    requires forall u | u in level :: !Less(c, u.run)
    ensures Q.PastCursor(level, c) == []
  {
    if level != [] { NonePast(level[..|level| - 1], c); }
  }

  /** Among a, b and c, with a there and nothing past the cursor, a's review is next. */
  lemma PickIsA(level: seq<Review>, v: Review, c: Id)
    requires v in level && v.run == A && forall u | u in level :: u.run in {A, B, C}
    requires c == "" || (c == C && forall u | u in level :: u.run != C)
    ensures Q.NextAfter(level, c).Some? && Q.NextAfter(level, c).value.run == A
  {
    hide Q.Earliest, Q.PastCursor, Less;
    Letters();
    if c != "" { NonePast(level, c); }
    EarliestMeans(level);
  }

  /** The review in turn is a's: it is the lowest run with a waiting review, and nothing waits past the cursor. */
  lemma TurnOfA(db: Db, v: Review)
    requires v.id in db.reviews && db.reviews[v.id] == v && v.state == ROpen && v.run == A
    requires forall id | id in db.reviews && db.reviews[id].state == ROpen ::
               db.reviews[id].level == Warning && db.reviews[id].run in {A, B, C}
    requires var c := Q.CursorAt(db.cursors, Q.Rank(Warning));
             c == "" || (c == C && forall id | id in db.reviews && db.reviews[id].state == ROpen ::
                           db.reviews[id].run != C)
    ensures Found(db, None).Some? && Found(db, None).value.run == A
    ensures exists id :: id in db.reviews && db.reviews[id] == Found(db, None).value && db.reviews[id].state == ROpen
  {
    hide Q.NextAfter, Q.CursorAt;
    var items := Waiting(db);
    assert v in items;
    Q.BestIsThere(items);
    var rank := Q.BestRank(items);
    assert rank == Q.Rank(Warning);
    var level := Q.AtRank(items, rank);
    assert v in level;
    PickIsA(level, v, Q.CursorAt(db.cursors, rank));
    PickIsThere(level, Q.CursorAt(db.cursors, rank));
    assert Found(db, None) == Q.NextOpen(items, db.cursors);
  }

  /** What is known of the reviews, and that b waits. */
  lemma KeepsB(s: Sys, x: Scene)
    requires Standing(s, x) && x.runs == {A, B, C}
    requires "wth_r3" in x.reviews && x.reviews["wth_r3"].state == ROpen && x.reviews["wth_r3"].run == B
             && x.reviews["wth_r3"].level == Warning
    ensures Keeps(s.db, B, Warning) && s.db.reviews == x.reviews && s.db.cursors == x.cursors
    ensures ReviewsSet(x.reviews, x.used)
  {
    hide FirstPolicy, RunFits, ReviewsSet, ActionsSet, ChecksSet;
    Letters();
    assert s.db.reviews["wth_r3"].run == B;
  }

  lemma FoundByName(db: Db, id: Id)
    requires id in db.reviews
    ensures Found(db, Some(id)) == Some(db.reviews[id])
  {}

  lemma FourIs(reviews: map<Id, Review>, taken: set<Id>, id: Id)
    requires Four(reviews, taken) && id in reviews
    ensures reviews[id].id == id && reviews[id].level == Warning && reviews[id].dueMs == 10
    ensures reviews[id].run in {A, B, C} && reviews["wth_r4"].id == "wth_r4" && reviews["wth_r4"].run == C
    ensures id !in taken ==> reviews[id].state == ROpen
  {}

  lemma OneMoreTaken(reviews: map<Id, Review>, taken: set<Id>, v: Review, v2: Review)
    requires Four(reviews, taken) && v.id in reviews && reviews[v.id] == v
    requires v2 == v.(state := Claimed, owner := v2.owner, leaseUntilMs := v2.leaseUntilMs, revision := v2.revision)
    ensures Four(reviews[v.id := v2], taken + {v.id})
  {}

  lemma FirstTurn(s: Sys, x: Scene) returns (v: Review)
    requires Standing(s, x) && x.runs == {A, B, C} && Four(x.reviews, {}) && x.cursors == map[]
    ensures v.id in {"wth_r1", "wth_r2"} && v.id in x.reviews && x.reviews[v.id] == v && v.run == A
    ensures Found(s.db, None) == Some(v)
    ensures ReviewFits(v, x.used) && Keeps(s.db, B, Warning)
  {
    hide Set, Front, FirstPolicy, Keeps, Found, ReviewFits;
    KeepsB(s, x);
    TurnOfA(s.db, x.reviews["wth_r1"]);
    v := Found(s.db, None).value;
    assert ReviewFits(x.reviews[v.id], x.used);
  }

  lemma ByName(s: Sys, x: Scene, v: Id) returns (n: Review)
    requires v in {"wth_r1", "wth_r2"} && Four(x.reviews, {v}) && Standing(s, x) && x.runs == {A, B, C}
    ensures "wth_r4" in x.reviews && n == x.reviews["wth_r4"] && n.id == "wth_r4" && n.state == ROpen
    ensures n.run == C && n.level == Warning && n.dueMs == 10 && Found(s.db, Some("wth_r4")) == Some(n)
    ensures ReviewFits(n, x.used) && Keeps(s.db, B, Warning)
  {
    hide Set, Front, FirstPolicy, Keeps, Found, ReviewFits;
    KeepsB(s, x);
    n := x.reviews["wth_r4"];
    FoundByName(s.db, "wth_r4");
  }

  lemma SecondTurn(s: Sys, x: Scene, v: Id) returns (w: Review)
    requires v in {"wth_r1", "wth_r2"} && Four(x.reviews, {v, "wth_r4"}) && Standing(s, x) && x.runs == {A, B, C}
    requires x.cursors == map[Q.Rank(Warning) := C]
    ensures w.id in x.reviews && x.reviews[w.id] == w && w.run == A && w.state == ROpen && Found(s.db, None) == Some(w)
    ensures ReviewFits(w, x.used) && Keeps(s.db, B, Warning)
  {
    hide Set, Front, FirstPolicy, Keeps, Found, ReviewFits;
    KeepsB(s, x);
    Letters();
    TurnOfA(s.db, x.reviews[if v == "wth_r1" then "wth_r2" else "wth_r1"]);
    w := Found(s.db, None).value;
    assert ReviewFits(x.reviews[w.id], x.used);
  }

  lemma TookFirst(s: Sys, x: Scene) returns (v: Review, v2: Review)
    requires Standing(s, x) && x == With(x.reviews, map[], USED) && Four(x.reviews, {})
    ensures v.id in {"wth_r1", "wth_r2"} && v.run == A && v.level == Warning && Four(x.reviews[v.id := v2], {v.id})
    ensures Serves(CFG, s, Claiming("q1", None), v) && Keeps(s.db, B, Warning)
    ensures Standing(Step(CFG, s, Claiming("q1", None)),
                     With(x.reviews[v.id := v2], map[Q.Rank(Warning) := A], USED + ["q1"]))
  {
    hide Step, Standing, FirstPolicy, Hands, Keeps, Found, ReviewFits, Four;
    v := FirstTurn(s, x);
    FourIs(x.reviews, {}, v.id);
    v2 := Handed(s, 10, x, "q1", None, v);
    OneMoreTaken(x.reviews, {}, v, v2);
    assert {} + {v.id} == {v.id} && map[][Q.Rank(Warning) := A] == map[Q.Rank(Warning) := A];
  }

  lemma TookLast(s: Sys, x: Scene, v: Id) returns (w: Review)
    requires v in {"wth_r1", "wth_r2"} && Four(x.reviews, {v, "wth_r4"}) && Standing(s, x)
    requires x == With(x.reviews, map[Q.Rank(Warning) := C], USED + ["q1"] + ["q2"])
    ensures w.run == A && w.level == Warning && Serves(CFG, s, Claiming("q3", None), w) && Keeps(s.db, B, Warning)
  {
    hide Step, Standing, FirstPolicy, Hands, Keeps, Found, ReviewFits, Four;
    w := SecondTurn(s, x, v);
    FourIs(x.reviews, {v, "wth_r4"}, w.id);
    var w2 := Handed(s, 10, x, "q3", None, w);
  }

  /** With two held checks of a, one of b and one of c waiting, a's reviews are claimed in turn twice while b waits,
      because a claim by name of c's in between put the cursor past b. The claim is off the arc from a up to b. */
  lemma NamedClaimOvertakes() returns (v: Review, n: Review, w: Review)
    ensures var s0 := Reached(CFG, COLD, WAITING);
            var s1 := Step(CFG, s0, Claiming("q1", None));
            var s2 := Step(CFG, s1, Claiming("q2", Some("wth_r4")));
            && Serves(CFG, s0, Claiming("q1", None), v) && Names(CFG, s1, Claiming("q2", Some("wth_r4")), n)
            && Serves(CFG, s2, Claiming("q3", None), w)
            && Keeps(s0.db, B, Warning) && Keeps(s1.db, B, Warning) && Keeps(s2.db, B, Warning)
    ensures v.run == w.run == A && n.run == C && !OnArc(A, C, B) && v.level == n.level == w.level == Warning
  {
    hide Step, Reached, Standing, FirstPolicy, Hands, Keeps, Found, ReviewFits, Four, Less;
    var s0 := Reached(CFG, COLD, WAITING);
    var m0 := HeldReviews();
    var v2;
    v, v2 := TookFirst(s0, With(m0, map[], USED));
    var s1 := Step(CFG, s0, Claiming("q1", None));
    var x1 := With(m0[v.id := v2], map[Q.Rank(Warning) := A], USED + ["q1"]);
    n := ByName(s1, x1, v.id);
    FourIs(x1.reviews, {v.id}, n.id);
    var n2 := Handed(s1, 10, x1, "q2", Some("wth_r4"), n);
    OneMoreTaken(x1.reviews, {v.id}, n, n2);
    assert {v.id} + {"wth_r4"} == {v.id, "wth_r4"};
    assert map[Q.Rank(Warning) := A][Q.Rank(Warning) := C] == map[Q.Rank(Warning) := C];
    w := TookLast(Step(CFG, s1, Claiming("q2", Some("wth_r4"))),
                  With(x1.reviews[n.id := n2], map[Q.Rank(Warning) := C], USED + ["q1"] + ["q2"]), v.id);
    Letters();
  }

  // ---- a review lifetime of zero ----

  /** A run with its observation and a check under a zero lifetime, all at time 0. */
  const PENDING: seq<Action> :=
    [Boot(3, 0)] + [Activation(0)] + [Opening("2", A, 0)] + [Telling("3", A)] + [Checking("r1", A)]

  const ZERO := Scene([FirstPolicy(0)], {A}, {A}, map[], map[], ["1", "2", "3", "r1"])

  lemma PendingUnderZero()
    ensures var s := Reached(CFG, COLD, PENDING); Front(s, ZERO.used) && Busy(s.db, ZERO, "r1", A, 0, {})
  {
    hide Step, Reached, Front, Set, Busy, FirstPolicy;
    var s1 := [Boot(3, 0)] + [Activation(0)];
    var s2 := s1 + [Opening("2", A, 0)];
    var s3 := s2 + [Telling("3", A)];
    var p := [FirstPolicy(0)];
    AfterStart(0);
    var x1 := Scene(p, {}, {}, map[], map[], ["1"]);
    AfterOpening(s1, 0, x1, "2", A);
    assert {} + {A} == {A} && ["1"] + ["2"] == ["1", "2"];
    AfterTelling(s2, 0, Scene(p, {A}, {}, map[], map[], ["1", "2"]), "3", A);
    assert ["1", "2"] + ["3"] == ["1", "2", "3"] && ["1", "2", "3"] + ["r1"] == ZERO.used;
    ReachedOne(CFG, COLD, s3, Checking("r1", A));
    Created(Reached(CFG, COLD, s3), Scene(p, {A}, {A}, map[], map[], ["1", "2", "3"]), 0, "r1", A);
  }

  /** At time 0, with one check waiting for its monitors, a tick's timers, its finalizations and its window pass have
      nothing to do. */
  lemma NothingToDo(db: Db)
    requires Busy(db, ZERO, "r1", A, 0, {})
    ensures AfterTimers(db, 0) == db && EvaluatingIds(db, None) == ["r1"] && LiveRunIds(db) == [A]
    ensures MaybeFinalize(db, 0, "r1") == db && PassWindows(db, 0, A) == db && TickOutbox(db, {}) == db
  {
    hide AfterTimers, EvaluatingIds, LiveRunIds, MaybeFinalize, PassWindows, TickOutbox, Busy;
    NoTimerIsUp(db);
    OneOfEach(db);
    NotYet(db, ZERO, "r1", A, 0, {}, "a");
    NoWindowIsDue(db);
    assert TickOutbox(db, {}) == db by { NoJobIsTaken(db); }
  }

  lemma NoJobIsTaken(db: Db)
    ensures TickOutbox(db, {}) == db
  {}

  lemma NoWindowIsDue(db: Db)
    ensures PassWindows(db, 0, A) == db
  {}

  lemma NoTimerIsUp(db: Db)
    requires Busy(db, ZERO, "r1", A, 0, {})
    ensures AfterTimers(db, 0) == db
  {
    hide FirstPolicy, Reckoned, SlotsWith, Seen, ChecksSet, ActionsSet, PolicyIn;
    PolicyIs(0);
    assert SilentRuns(db, 0) == [] by { NoneIsSilent(db); }
    assert DueReviews(db, 0) == [] && LeaseIds(db, 0) == [] && WakeIds(db, 0) == [];
  }

  lemma NoneIsSilent(db: Db)
    requires Busy(db, ZERO, "r1", A, 0, {})
    ensures SilentRuns(db, 0) == []
  {
    hide FirstPolicy, Reckoned, SlotsWith, Seen, ChecksSet, ActionsSet;
    PolicyIs(0);
    SeenIsThere(db, ZERO, A, {"r1"});
    assert (set id | id in db.runs && Silent(db, 0, db.runs[id])) == {};
  }

  lemma OneOfEach(db: Db)
    requires Busy(db, ZERO, "r1", A, 0, {})
    ensures EvaluatingIds(db, None) == ["r1"] && LiveRunIds(db) == [A]
  {
    hide FirstPolicy, Reckoned, SlotsWith, Seen, ActionsSet;
    SeenIsThere(db, ZERO, A, {"r1"});
    OneId(EvaluatingIds(db, None), "r1");
    assert (set id | id in db.runs && db.runs[id].state in {Open, Paused}) == {A};
    OneId(LiveRunIds(db), A);
  }

  lemma OneId(ids: seq<Id>, id: Id)
    requires forall x :: x in ids <==> x == id
    requires forall i, j | 0 <= i < j < |ids| :: ids[i] != ids[j]
    ensures ids == [id]
  {
    CountIs(ids);
    forall i | 0 <= i < |ids| ensures ids[i] == id { assert ids[i] in ids; }
    assert id in ids;
    assert (set i | 0 <= i < |ids| :: ids[i]) == {id};
  }

  /** A policy may set the review lifetime to zero. Then the tick that takes in the answers to a check holds it, and
      leaves its review due at the very instant of the tick. */
  lemma ZeroLifetimeStaysDue()
    ensures var s := Reached(CFG, COLD, PENDING);
            s.up && s.host.state == Ready && !NoneDue(Ticked(CFG, s, {}, Replies("r1", A, 0)), s.now)
  {
    hide Step, Reached, Front, Set, Busy, FirstPolicy, AfterTimers, EvaluatingIds, LiveRunIds, MaybeFinalize,
         PassWindows, TickOutbox, Replies, NoneDue;
    var s := Reached(CFG, COLD, PENDING);
    PendingUnderZero();
    FrontIs(s, ZERO.used);
    NothingToDo(s.db);
    QuietTick(s, Replies("r1", A, 0));
    var v := ThreeReplies(s, ZERO, "r1", A, 0);
    var d := Reached(CFG, s, Replying(Replies("r1", A, 0)));
    ReviewIsDue(d, ZERO.(reviews := map[][v.id := v]), v);
  }

  lemma ReviewIsDue(s: Sys, x: Scene, v: Review)
    requires Standing(s, x) && v.id in x.reviews && x.reviews[v.id] == v && v.state == ROpen && v.dueMs == 0
    ensures !NoneDue(s.db, 0)
  {
    hide RunsSet, ChecksSet, ActionsSet, ReviewsSet;
    assert v.id in s.db.reviews && Active(s.db.reviews[v.id].state) && EffectiveDue(s.db.reviews[v.id]) == 0;
  }

  /** A tick in which only the replies change anything. */
  lemma QuietTick(s: Sys, replies: seq<Completion>)
    requires s.up && s.host.state == Ready && s.now == 0
    requires AfterTimers(s.db, 0) == s.db && EvaluatingIds(s.db, None) == ["r1"] && LiveRunIds(s.db) == [A]
    requires MaybeFinalize(s.db, 0, "r1") == s.db && PassWindows(s.db, 0, A) == s.db && TickOutbox(s.db, {}) == s.db
    ensures Ticked(CFG, s, {}, replies) == Reached(CFG, s, Replying(replies)).db
  {
    hide Step, Reached, AfterTimers, EvaluatingIds, LiveRunIds, MaybeFinalize, PassWindows, TickOutbox, Replying;
    var first: seq<Action> := [FinalizeOne("r1"), Windows(A), Outbox({})];
    TickSplits(CFG, s, {}, replies);
    assert Finalizing(["r1"]) == [FinalizeOne("r1")] && Passing([A]) == [Windows(A)];
    assert LaterActions(s.db, {}, replies) == first + Replying(replies);
    ReachedSplits(CFG, s, first, Replying(replies));
    ReachedOne(CFG, s, [], FinalizeOne("r1"));
    ReachedOne(CFG, s, [FinalizeOne("r1")], Windows(A));
    ReachedOne(CFG, s, [FinalizeOne("r1"), Windows(A)], Outbox({}));
    assert [] + [FinalizeOne("r1")] == [FinalizeOne("r1")];
    assert [FinalizeOne("r1")] + [Windows(A)] == [FinalizeOne("r1"), Windows(A)];
    assert [FinalizeOne("r1"), Windows(A)] + [Outbox({})] == first;
    ReachedNone(s);
    QuietSteps(s);
  }

  lemma QuietSteps(s: Sys)
    requires s.up && s.host.state == Ready && s.now == 0
    requires MaybeFinalize(s.db, 0, "r1") == s.db && PassWindows(s.db, 0, A) == s.db && TickOutbox(s.db, {}) == s.db
    ensures Step(CFG, s, FinalizeOne("r1")) == s && Step(CFG, s, Windows(A)) == s && Step(CFG, s, Outbox({})) == s
  {
    hide TickSilence, TickDue, TickLease, TickWake, MaybeFinalize, PassWindows, TickOutbox;
  }

  // ---- a log too long for a manifest ----

  /** A host started n times, doing nothing else. */
  function Starts(n: nat): (r: seq<Action>)
    ensures |r| == n && forall i | 0 <= i < n :: r[i] == Boot(3, 0)
  {
    seq(n, i => Boot(3, 0))
  }

  ghost predicate Bare(db: Db) {
    && db.policies == [] && db.runs == map[] && db.observations == map[] && db.checks == map[] && db.reviews == map[]
  }

  lemma BootAdds(s: Sys)
    requires Bare(s.db)
    ensures Bare(Step(CFG, s, Boot(3, 0)).db) && |Step(CFG, s, Boot(3, 0)).db.audit| == |s.db.audit| + 2
  {
    hide Put, Recovered;
    var d1 := s.db.(hostEpoch := s.db.hostEpoch + 1);
    var d2 := Put(d1, s.now, HostStarted, AHost(Host(Starting, d1.hostEpoch)));
    PutFrame(d1, s.now, HostStarted, AHost(Host(Starting, d1.hostEpoch)));
    NothingToRecover(d2, s.now);
    PutFrame(d2, s.now, HostReady, AHost(Host(Ready, d2.hostEpoch)));
  }

  /** Every start writes two events. */
  lemma {:induction false} StartsAdd(n: nat)
    ensures Bare(Reached(CFG, COLD, Starts(n)).db) && |Reached(CFG, COLD, Starts(n)).db.audit| == 2 * n
  {
    hide Step, Bare;
    if n == 0 {
      assert Bare(EMPTY) by { EmptyIsBare(); }
    } else {
      StartsAdd(n - 1);
      assert Starts(n)[..n - 1] == Starts(n - 1);
      BootAdds(Reached(CFG, COLD, Starts(n - 1)));
    }
  }

  lemma EmptyIsBare()
    ensures Bare(EMPTY)
  {}

  const KEY: Signer := Signer("k", 0, "public")
  const TRUST: Trust :=
    Trust("t", [Pin("k", "public", {ForBundle, ForAudit}, {"t"}, 0, None, true, false)], 0)

  const NONE_ELSE := Annex([], [], {})

  function KeysFor(db: Db): Signers { Signers("t", KEY, seq(|db.audit|, i => KEY), [], map[], []) }

  lemma KeyIsPinned(tag: Tag)
    requires tag in {ForBundle, ForAudit}
    ensures Pinned(TRUST, tag, "t", KEY)
  {}

  /** After 2049 starts of an otherwise unused daemon the log holds 4098 events, and no full export of it is handed out,
      whatever its size; after 2048 one that fits into a reply is, and verifies. */
  lemma LongLogIsRefused(size: Bundle -> nat)
    ensures var db := Reached(CFG, COLD, Starts(2049)).db;
            && Complete(db, NONE_ELSE, KeysFor(db))
            && Requested(db, NONE_ELSE, KeysFor(db), None, true, size).Undelivered?
    ensures var db := Reached(CFG, COLD, Starts(2048)).db;
            && Complete(db, NONE_ELSE, KeysFor(db))
            && var b := Exported(db, NONE_ELSE, KeysFor(db), |db.audit|, true);
               size(b) <= REPLY_MAX ==>
                 && Requested(db, NONE_ELSE, KeysFor(db), None, true, size) == Delivered(b)
                 && Judged(TRUST, b, size).Some? && Judged(TRUST, b, size).value.status == FullReplay
  {
    hide Reached, Verified, Exported, Pinned, Inv, Extends, ArraysFit, Count;
    KeyIsPinned(ForBundle);
    KeyIsPinned(ForAudit);
    StartsAdd(2049);
    StartsAdd(2048);
    var long, short := Reached(CFG, COLD, Starts(2049)).db, Reached(CFG, COLD, Starts(2048)).db;
    Always(CFG, Starts(2048), 2048);
    DeliveryMeans(long, NONE_ELSE, KeysFor(long), None, true, size);
    DeliveryMeans(short, NONE_ELSE, KeysFor(short), None, true, size);
    NothingCounts(short.observations, RunIds(short));
    if Requested(short, NONE_ELSE, KeysFor(short), None, true, size).Delivered? {
      DeliveredVerifies(TRUST, short, NONE_ELSE, KeysFor(short), None, true, size);
    }
  }

  lemma NothingCounts(streams: Streams, runs: seq<Id>)
    requires streams == map[] && forall i | 0 <= i < |runs| :: runs[i] in streams
    ensures Count(streams, runs) == 0
  {}
}
