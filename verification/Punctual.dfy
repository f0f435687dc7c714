/** Nothing is left due once a tick is over (crates/watch/src/daemon.rs, `tick` and `next_due`). */
module Punctual {
  import opened Basics
  import opened Ids
  import opened Records
  import opened Store
  import opened Detect
  import opened Protocol
  import D = DriftReducer
  import opened Timers
  import opened Safety
  import opened Invariants
  import opened Steps
  import opened Clearing
  import opened TimersKeep
  import opened System

  predicate OnTime(v: Review, now: nat) {
    (Active(v.state) ==> EffectiveDue(v) > now) && !LeaseOver(v, now) && !WakeOver(v, now)
  }

  predicate Overdue(c: Check, now: nat) { c.state == Evaluating && c.deadlineMs <= now }

  ghost predicate NoneSilent(db: Db, now: nat) { forall id | id in db.runs :: !Silent(db, now, db.runs[id]) }

  ghost predicate Named(db: Db) {
    && (forall id | id in db.runs :: db.runs[id].id == id)
    && (forall id | id in db.reviews :: db.reviews[id].id == id)
  }

  // ---- the four review and run timers ----

  lemma {:induction false} PauseSilentMap(db: Db, now: nat, ids: seq<Id>)
    requires HasRuns(db, ids) && Named(db)
    ensures var d := PauseSilent(db, now, ids);
            && d.runs.Keys == db.runs.Keys && Named(d)
            && (forall id | id in db.runs :: if id in ids then d.runs[id].state != Open else d.runs[id] == db.runs[id])
    decreases |ids|
  {
    hide RowOf, NextEvent, FinishAll;
    if ids != [] {
      assert ids == [ids[0]] + ids[1..];
      if db.runs[ids[0]].state != Open {
        PauseSilentMap(db, now, ids[1..]);
        if ids[0] in ids[1..] { assert PauseSilent(db, now, ids[1..]).runs[ids[0]].state != Open; }
      } else {
        var halted := Halt(db.runs[ids[0]], Paused, "SOURCE_SILENCE");
        var d := StaleChecks(Put(db, now, RunPaused, ARun(halted)), now, ids[0]);
        PauseSilentMap(d, now, ids[1..]);
      }
    }
  }

  lemma SilenceSettles(db: Db, now: nat)
    requires Named(db)
    ensures NoneSilent(TickSilence(db, now), now) && Named(TickSilence(db, now))
  {
    hide PauseSilent, Freshness;
    PauseSilentMap(db, now, SilentRuns(db, now));
    FreshnessSame(db, TickSilence(db, now));
  }

  lemma FreshnessSame(db: Db, next: Db)
    requires next.policies == db.policies
    ensures forall r :: Freshness(next, r) == Freshness(db, r)
  {}

  lemma DueSettles(db: Db, now: nat)
    requires Named(db)
    ensures var d := TickDue(db, now);
            && d.runs == db.runs && d.policies == db.policies && Named(d)
            && forall id | id in d.reviews && Active(d.reviews[id].state) :: EffectiveDue(d.reviews[id]) > now
  {
    hide ExpireAll;
    ExpireAllMap(db, now, DueReviews(db, now));
  }

  lemma {:induction false} ReleaseAllMap(db: Db, now: nat, ids: seq<Id>)
    requires HasReviews(db, ids) && Named(db)
    requires forall i, j | 0 <= i < j < |ids| :: ids[i] != ids[j]
    ensures ReleaseAll(db, now, ids).reviews
            == map id | id in db.reviews :: if id in ids && LeaseOver(db.reviews[id], now) && now < db.reviews[id].dueMs
                                            then Reopen(db.reviews[id]) else db.reviews[id]
    decreases |ids|
  {
    hide Put, LeaseOver;
    if ids != [] {
      var v := db.reviews[ids[0]];
      assert ids == [ids[0]] + ids[1..];
      PutFrame(db, now, ReviewReleased, AReview(Reopen(v)));
      ReleaseAllMap(if !LeaseOver(v, now) || now >= v.dueMs then db
                    else Put(db, now, ReviewReleased, AReview(Reopen(v))),
                    now, ids[1..]);
    }
  }

  lemma {:induction false} WakeAllMap(db: Db, now: nat, ids: seq<Id>)
    requires HasReviews(db, ids) && Named(db)
    requires forall i, j | 0 <= i < j < |ids| :: ids[i] != ids[j]
    ensures WakeAll(db, now, ids).reviews
            == map id | id in db.reviews :: if id in ids && WakeOver(db.reviews[id], now) && now < db.reviews[id].dueMs
                                            then Woken(db.reviews[id]) else db.reviews[id]
    decreases |ids|
  {
    hide Put, WakeOver;
    if ids != [] {
      var v := db.reviews[ids[0]];
      assert ids == [ids[0]] + ids[1..];
      PutFrame(db, now, ReviewWoken, AReview(Woken(v)));
      WakeAllMap(if !WakeOver(v, now) || now >= v.dueMs then db else Put(db, now, ReviewWoken, AReview(Woken(v))),
                 now, ids[1..]);
    }
  }

  lemma ReopenedOnTime(v: Review, now: nat)
    requires Active(v.state) && EffectiveDue(v) > now
    ensures v.state == Claimed ==> EffectiveDue(Reopen(v)) > now && now < v.dueMs && !LeaseOver(Reopen(v), now)
    ensures v.state == Deferred ==> now < v.dueMs && OnTime(Woken(v), now)
  {}

  lemma LeaseSettles(db: Db, now: nat)
    requires Named(db)
    requires forall id | id in db.reviews && Active(db.reviews[id].state) :: EffectiveDue(db.reviews[id]) > now
    ensures var d := TickLease(db, now);
            && d.runs == db.runs && d.policies == db.policies && Named(d)
            && (forall id | id in d.reviews && Active(d.reviews[id].state) :: EffectiveDue(d.reviews[id]) > now)
            && (forall id | id in d.reviews :: !LeaseOver(d.reviews[id], now))
  {
    hide ReleaseAll, EffectiveDue;
    var d := TickLease(db, now);
    ReleaseAllMap(db, now, LeaseIds(db, now));
    forall id | id in db.reviews && LeaseOver(db.reviews[id], now)
      ensures EffectiveDue(Reopen(db.reviews[id])) > now && now < db.reviews[id].dueMs
    {
      ReopenedOnTime(db.reviews[id], now);
    }
  }

  lemma WakeSettles(db: Db, now: nat)
    requires Named(db)
    requires forall id | id in db.reviews && Active(db.reviews[id].state) :: EffectiveDue(db.reviews[id]) > now
    requires forall id | id in db.reviews :: !LeaseOver(db.reviews[id], now)
    ensures var d := TickWake(db, now);
            && d.runs == db.runs && d.policies == db.policies
            && forall id | id in d.reviews :: OnTime(d.reviews[id], now)
  {
    hide WakeAll, EffectiveDue, LeaseOver;
    WakeAllMap(db, now, WakeIds(db, now));
    forall id | id in db.reviews && WakeOver(db.reviews[id], now)
      ensures OnTime(Woken(db.reviews[id]), now) && now < db.reviews[id].dueMs
    {
      ReopenedOnTime(db.reviews[id], now);
    }
  }

  /** Once the run, due, lease and wake timers have run in that order, none of them has anything left to do. */
  lemma TimersSettle(db: Db, now: nat)
    requires Inv(db)
    ensures NoneSilent(AfterTimers(db, now), now)
    ensures forall id | id in AfterTimers(db, now).reviews :: OnTime(AfterTimers(db, now).reviews[id], now)
  {
    hide Kept, PoliciesOk, RunsOk, StreamsOk, ChecksOk, ReviewsOk, ClearsOk, TickSilence, TickDue, TickLease,
         TickWake, OnTime, Freshness;
    Keyed(db);
    var d := TickSilence(db, now);
    SilenceSettles(db, now);
    DueSettles(d, now);
    LeaseSettles(TickDue(d, now), now);
    WakeSettles(TickLease(TickDue(d, now), now), now);
    FreshnessSame(d, AfterTimers(db, now));
  }

  // ---- what the rest of a tick may do to runs, checks and reviews ----

  /** A review opened now under a policy that gives reviews `ttl` milliseconds. */
  ghost predicate OpenedNow(db: Db, v: Review, now: nat) {
    && v.state == ROpen && RunPolicy(db, v.run).Some?
    && v.dueMs == SatAdd(now, RunPolicy(db, v.run).value.reviewTtlMs)
  }

  /** A review is left alone, is the accepted one a clearance consumes, or is new. */
  ghost predicate ReviewsMove(db: Db, next: Db, now: nat) {
    forall id | id in next.reviews ::
      if id in db.reviews
      then next.reviews[id] == db.reviews[id] || Spent(db.reviews[id], next.reviews[id])
      else OpenedNow(db, next.reviews[id], now)
  }

  predicate Spent(v: Review, v2: Review) { v.state == Accepted && v2.state == Consumed }

  ghost predicate ChecksMove(db: Db, next: Db) {
    && db.checks.Keys == next.checks.Keys
    && forall id | id in db.checks :: next.checks[id] == db.checks[id] || Terminal(next.checks[id].state)
  }

  /** The window pass leaves what is recorded of a window alone, and records no counts. */
  ghost predicate WindowsMove(db: Db, next: Db) {
    && (forall k | k in db.windows :: k in next.windows && next.windows[k] == db.windows[k])
    && forall k | k in next.windows :: k in db.windows || next.windows[k].None?
  }

  /** The drift reducer is all that moves on a run. */
  predicate DriftOnly(r: Run, r2: Run) { r2 == r.(drift := r2.drift, revision := r2.revision) }

  ghost predicate RunsMove(db: Db, next: Db) {
    && next.runs.Keys == db.runs.Keys
    && forall id | id in db.runs :: DriftOnly(db.runs[id], next.runs[id])
  }

  ghost predicate Moves(db: Db, next: Db, now: nat) {
    && RunsMove(db, next) && next.policies == db.policies && next.cursors == db.cursors
    && next.observations == db.observations && WindowsMove(db, next)
    && db.reviews.Keys <= next.reviews.Keys
    && ReviewsMove(db, next, now) && ChecksMove(db, next)
  }

  lemma PolicySame(db: Db, next: Db)
    requires RunsMove(db, next) && next.policies == db.policies
    ensures forall id :: RunPolicy(next, id) == RunPolicy(db, id)
  {
    hide PolicyIn;
    forall id ensures RunPolicy(next, id) == RunPolicy(db, id) {
      if id in db.runs { assert DriftOnly(db.runs[id], next.runs[id]); }
    }
  }

  lemma RunsThen(a: Db, b: Db, c: Db)
    requires RunsMove(a, b) && RunsMove(b, c)
    ensures RunsMove(a, c)
  {
    forall id | id in a.runs ensures DriftOnly(a.runs[id], c.runs[id]) {
      assert DriftOnly(a.runs[id], b.runs[id]) && DriftOnly(b.runs[id], c.runs[id]);
    }
  }

  lemma ReviewsThen(a: Db, b: Db, c: Db, now: nat)
    requires ReviewsMove(a, b, now) && ReviewsMove(b, c, now) && a.reviews.Keys <= b.reviews.Keys <= c.reviews.Keys
    requires forall id :: RunPolicy(b, id) == RunPolicy(a, id)
    ensures ReviewsMove(a, c, now)
  {
    hide RunPolicy;
  }

  lemma MovesThen(a: Db, b: Db, c: Db, now: nat)
    requires Moves(a, b, now) && Moves(b, c, now)
    ensures Moves(a, c, now)
  {
    hide RunPolicy, RunsMove, ReviewsMove;
    PolicySame(a, b);
    RunsThen(a, b, c);
    ReviewsThen(a, b, c, now);
  }

  lemma PutCheckMoves(db: Db, now: nat, c: Check)
    requires c.id in db.checks && Terminal(c.state)
    ensures var d := Put(db, now, CheckFinalized, ACheck(c));
            && Moves(db, d, now) && d.checks == db.checks[c.id := c] && d.reviews == db.reviews && d.runs == db.runs
            && d.policies == db.policies
  {
    hide RowOf, NextEvent;
  }

  lemma PutReviewMoves(db: Db, now: nat, kind: Kind, v: Review)
    requires if v.id in db.reviews then Spent(db.reviews[v.id], v) else OpenedNow(db, v, now)
    ensures Moves(db, Put(db, now, kind, AReview(v)), now) && Put(db, now, kind, AReview(v)).checks == db.checks
  {
    hide Put, RunPolicy;
    PutFrame(db, now, kind, AReview(v));
    PolicySame(db, Put(db, now, kind, AReview(v)));
  }

  lemma OutcomeMoves(db: Db, now: nat, c: Check, r: Run, p: Policy, o: Observation, outcome: Outcome,
                     existing: Option<Id>, consumed: Option<Review>, b: Basis)
    requires c.id in db.checks && ReviewIdFor(c.id) !in db.reviews && PolicyOf(db, r.policy) == Some(p)
    requires r.id in db.runs && db.runs[r.id] == r
    requires consumed.Some? ==> consumed.value.id in db.reviews && db.reviews[consumed.value.id].state == Accepted
    ensures var d := ApplyOutcome(db, now, c, r, p, o, outcome, existing, consumed, b);
            Moves(db, d, now) && c.id in d.checks && Terminal(d.checks[c.id].state)
  {
    hide PolicyIn, RowOf, NextEvent, NewClearance, Moves, Put;
    match outcome
    case ODeny(why) => PutCheckMoves(db, now, Finish(c, Deny, why));
    case OExpired(why) => PutCheckMoves(db, now, Finish(c, CExpired, why));
    case OHeld(why, novel) =>
      if novel {
        var v := NewReview(db, now, c, r, p, b, why);
        var c2 := Finish(c, Held, why).(review := Some(v.id));
        var d := Put(db, now, CheckFinalized, ACheck(c2));
        PutCheckMoves(db, now, c2);
        PutReviewMoves(d, now, ReviewOpened, v);
        MovesThen(db, d, Put(d, now, ReviewOpened, AReview(v)), now);
      } else {
        PutCheckMoves(db, now, Finish(c, Held, why).(review := if existing.Some? then existing else c.review));
      }
    case OClear =>
      var basis := OfBasis(if consumed.Some? && consumed.value.basis.Some? then consumed.value.basis.value else b);
      var c2 := Finish(c, CClear, "CLEAR").(clearance := Some(NewClearance(now, c, r, p, o, basis)));
      PutCheckMoves(db, now, c2);
      if consumed.Some? {
        var v := consumed.value.(state := Consumed, revision := consumed.value.revision + 1);
        var d := Put(db, now, ReviewConsumed, AReview(v));
        PutReviewMoves(db, now, ReviewConsumed, v);
        PutCheckMoves(d, now, c2);
        MovesThen(db, d, Put(d, now, CheckFinalized, ACheck(c2)), now);
      }
  }

  lemma FinalizeMoves(db: Db, now: nat, c: Check, vec: seq<Option<Result>>)
    requires Inv(db) && c.id in db.checks && db.checks[c.id] == c && c.state == Evaluating
    ensures Moves(db, Finalize(db, now, c, vec), now) && Terminal(Finalize(db, now, c, vec).checks[c.id].state)
  {
    hide Kept, PoliciesOk, StreamsOk, ReviewsOk, ClearsOk, ApplyOutcome, OutOfDate, RefIn, PolicyIn, Decide, Covers,
         ActiveWithBasis, Findings, SettledResults, SlotsOk, Put, Moves, CandidateBasis, Consumable;
    Keyed(db);
    NoReviewYet(db, c.id);
    EvaluatingRun(db, c);
    var r, p := db.runs[c.run], PolicyOf(db, c.policy).value;
    FinishMoves(db, now, c, Stale, "STALE");
    FinishMoves(db, now, c, CExpired, "MONITOR_TIMEOUT");
    if !OutOfDate(db, now, c, r, p) {
      InDate(db, now, c, r, p);
      var o, settled := ByRef(db, c.observation).value, SettledResults(vec);
      var b := CandidateBasis(c, r, o, settled);
      var held := ActiveWithBasis(db, r.id, b);
      ConsumableIsAccepted(db, now, c, r, b);
      OutcomeMoves(db, now, c.(results := settled), r, p, o, Decide(db, now, c, r, p, b, vec),
                   if held == {} then None else Some(Least(held)), Consumable(db, now, c, r, b), b);
    }
  }

  lemma ConsumableIsAccepted(db: Db, now: nat, c: Check, r: Run, b: Basis)
    requires forall id | id in db.reviews :: db.reviews[id].id == id
    ensures Consumable(db, now, c, r, b).Some? ==>
              var v := Consumable(db, now, c, r, b).value;
              v.id in db.reviews && db.reviews[v.id] == v && v.state == Accepted
  {}

  lemma InDate(db: Db, now: nat, c: Check, r: Run, p: Policy)
    requires !OutOfDate(db, now, c, r, p)
    ensures r.policy == c.policy && ByRef(db, c.observation).Some?
  {}

  lemma EvaluatingRun(db: Db, c: Check)
    requires RunsOk(db.policies, db.runs, {})
    requires ChecksOk(db.policies, db.observations, db.slots, db.runs, db.checks, {})
    requires c.id in db.checks && db.checks[c.id] == c && c.state == Evaluating
    ensures c.run in db.runs && PolicyOf(db, c.policy).Some?
  {
    hide SlotsOk, PolicyIn;
    assert EvaluatingOk(db.runs, c);
  }

  lemma FinishMoves(db: Db, now: nat, c: Check, state: CheckState, why: string)
    requires c.id in db.checks && Terminal(state)
    ensures var d := Put(db, now, CheckFinalized, ACheck(Finish(c, state, why)));
            Moves(db, d, now) && Terminal(d.checks[c.id].state)
  {
    hide RowOf, NextEvent;
  }

  lemma MovesSelf(db: Db, now: nat)
    ensures Moves(db, db, now)
  {}

  lemma MaybeFinalizeMoves(db: Db, now: nat, id: Id)
    requires Inv(db)
    ensures Moves(db, MaybeFinalize(db, now, id), now)
    ensures id in db.checks ==> !Overdue(MaybeFinalize(db, now, id).checks[id], now)
  {
    hide Kept, PoliciesOk, RunsOk, StreamsOk, ChecksOk, ReviewsOk, ClearsOk, Finalize, Moves, SlotVector;
    Keyed(db);
    MovesSelf(db, now);
    if id in db.checks && db.checks[id].state == Evaluating {
      FinalizeMoves(db, now, db.checks[id], SlotVector(SlotsOf(db, id), now));
      assert Moves(db, MaybeFinalize(db, now, id), now);
    }
  }

  /** Everything in a tick after the four timers. */
  ghost predicate Rest(a: Action) {
    a.FinalizeOne? || a.Windows? || a.Outbox? || a.MonitorReply? || a.Stored?
  }

  ghost predicate AllRest(acts: seq<Action>) { forall i | 0 <= i < |acts| :: Rest(acts[i]) }

  lemma SideMoves(db: Db, next: Db, now: nat)
    requires next.runs == db.runs && next.policies == db.policies && next.reviews == db.reviews
             && next.checks == db.checks
    requires next.cursors == db.cursors && next.observations == db.observations && WindowsMove(db, next)
    ensures Moves(db, next, now)
  {
    hide OpenedNow;
  }

  lemma StoreMoves(db: Db, host: HostState, epoch: nat, now: nat, k: Completion)
    requires Inv(db)
    ensures Moves(db, StoreReply(db, host, epoch, now, k).0, now)
  {
    hide Moves, Recompute, Put, Inv;
    MovesSelf(db, now);
    var faulted := Put(db, now, HostFaulted, AHost(Host(Faulted, epoch)));
    PutFrame(db, now, HostFaulted, AHost(Host(Faulted, epoch)));
    SideMoves(db, faulted, now);
    if k.slotMonitor in SlotsOf(db, k.check) && k.check in db.checks {
      var s := SlotsOf(db, k.check)[k.slotMonitor];
      SideMoves(db, SetSlot(db, k.check, k.monitor, MonitorSlot(s.deadlineMs, Timeout, None)), now);
      SideMoves(db, SetSlot(db, k.check, k.monitor, MonitorSlot(s.deadlineMs, Done, k.result)), now);
    }
  }

  lemma ReplyMoves(db: Db, host: HostState, epoch: nat, now: nat, k: Completion)
    requires Inv(db)
    ensures Moves(db, ApplyReply(db, host, epoch, now, k).0, now)
  {
    hide Inv, Extends, Moves, StoreReply, MaybeFinalize, SlotMove, SetSlot;
    StoreKeeps(db, host, epoch, now, k);
    StoreMoves(db, host, epoch, now, k);
    var d := StoreReply(db, host, epoch, now, k).0;
    MaybeFinalizeMoves(d, now, k.check);
    MovesThen(db, d, MaybeFinalize(d, now, k.check), now);
  }

  lemma StepMoves(cfg: Config, s: Sys, a: Action)
    requires Inv(s.db) && Rest(a)
    ensures Moves(s.db, Step(cfg, s, a).db, s.now) && Step(cfg, s, a).now == s.now
  {
    hide Inv, MaybeFinalize, ApplyReply, StoreReply, PassWindows, Moves;
    MovesSelf(s.db, s.now);
    match a
    case FinalizeOne(id) => MaybeFinalizeMoves(s.db, s.now, id);
    case Stored(k) => StoreMoves(s.db, s.host.state, s.host.epoch, s.now, k);
    case MonitorReply(k) => ReplyMoves(s.db, s.host.state, s.host.epoch, s.now, k);
    case Windows(run) => PassMoves(s.db, s.now, run);
    case Outbox(sent) => SideMoves(s.db, TickOutbox(s.db, sent), s.now);
  }

  lemma MarkMoves(db: Db, now: nat, id: Id, start: nat, s: Subject)
    requires s.AWindow?
    ensures Moves(db, Put(Marked(db, id, start), now, TrailingEvaluated, s), now)
    ensures Put(Marked(db, id, start), now, TrailingEvaluated, s).runs == db.runs
  {
    hide Put, Moves, Marked;
    var d := Marked(db, id, start);
    PutFrame(d, now, TrailingEvaluated, s);
    MarkedWindows(db, id, start);
    SideMoves(db, Put(d, now, TrailingEvaluated, s), now);
  }

  lemma MarkedWindows(db: Db, id: Id, start: nat)
    ensures var d := Marked(db, id, start); WindowsMove(db, d) && d == db.(windows := d.windows)
  {}

  lemma DriftMoves(db: Db, now: nat, r: Run)
    requires r.id in db.runs && DriftOnly(db.runs[r.id], r)
    ensures Moves(db, Put(db, now, DriftUpdated, ARun(r)), now)
  {
    hide Put;
    PutFrame(db, now, DriftUpdated, ARun(r));
  }

  lemma AttemptMoves(db: Db, now: nat, id: Id, start: nat)
    requires forall k | k in db.runs :: db.runs[k].id == k
    ensures Moves(db, Attempted(db, now, id, start), now)
  {
    hide Missed, D.Next, Put, PolicyIn, Marked, Moves;
    MovesSelf(db, now);
    if !(id !in db.runs || db.runs[id].state !in {Open, Paused} || RunPolicy(db, id).None?) {
      var r, p := db.runs[id], RunPolicy(db, id).value;
      var s := AWindow(id, start, Missed(db, r, p));
      var d := Put(Marked(db, id, start), now, TrailingEvaluated, s);
      MarkMoves(db, now, id, start, s);
      var r2 := r.(drift := D.Next(r.drift, D.Slot(start, D.NoWindow), p), revision := r.revision + 1);
      DriftMoves(d, now, r2);
      MovesThen(db, d, Put(d, now, DriftUpdated, ARun(r2)), now);
    }
  }

  lemma {:induction false} AttemptAllMoves(db: Db, now: nat, id: Id, starts: seq<nat>)
    requires Inv(db)
    ensures Moves(db, AttemptAll(db, now, id, starts), now)
    decreases |starts|
  {
    hide Attempted, Moves, Kept, PoliciesOk, RunsOk, StreamsOk, ChecksOk, ReviewsOk, ClearsOk, Extends;
    if starts == [] {
      MovesSelf(db, now);
    } else {
      var d := Attempted(db, now, id, starts[0]);
      Keyed(db);
      AttemptMoves(db, now, id, starts[0]);
      AttemptKeeps(db, now, id, starts[0]);
      AttemptAllMoves(d, now, id, starts[1..]);
      MovesThen(db, d, AttemptAll(d, now, id, starts[1..]), now);
    }
  }

  lemma PassMoves(db: Db, now: nat, id: Id)
    requires Inv(db)
    ensures Moves(db, PassWindows(db, now, id), now)
  {
    hide Inv, Moves, AttemptAll;
    AttemptAllMoves(db, now, id, DueWindows(db.windows, id, now, FirstStart(db.audit, id), 0));
  }

  lemma {:induction false} RestMoves(cfg: Config, s: Sys, acts: seq<Action>)
    requires Inv(s.db) && AllRest(acts)
    ensures Inv(Reached(cfg, s, acts).db) && Moves(s.db, Reached(cfg, s, acts).db, s.now)
            && Reached(cfg, s, acts).now == s.now
    decreases |acts|
  {
    hide Inv, Moves, Step, Rest;
    if acts == [] {
      MovesSelf(s.db, s.now);
    } else {
      var pre, a := acts[..|acts| - 1], acts[|acts| - 1];
      RestMoves(cfg, s, pre);
      StepKeeps(cfg, Reached(cfg, s, pre), a);
      StepMoves(cfg, Reached(cfg, s, pre), a);
      MovesThen(s.db, Reached(cfg, s, pre).db, Reached(cfg, s, acts).db, s.now);
    }
  }

  lemma NotOverdueStays(db: Db, next: Db, now: nat, id: Id)
    requires Moves(db, next, now) && id in db.checks && !Overdue(db.checks[id], now)
    ensures id in next.checks && !Overdue(next.checks[id], now)
  {}

  lemma OneFinalized(cfg: Config, s: Sys, id: Id)
    requires Inv(s.db) && s.up && s.host.state != Faulted
    ensures Step(cfg, s, FinalizeOne(id)) == s.(db := MaybeFinalize(s.db, s.now, id))
    ensures Moves(s.db, Step(cfg, s, FinalizeOne(id)).db, s.now)
    ensures id in s.db.checks ==> !Overdue(MaybeFinalize(s.db, s.now, id).checks[id], s.now)
  {
    hide Inv, Moves, MaybeFinalize, Overdue;
    MaybeFinalizeMoves(s.db, s.now, id);
  }

  lemma {:induction false} FinalizingSettles(cfg: Config, s: Sys, ids: seq<Id>)
    requires Inv(s.db) && s.up && s.host.state != Faulted
    ensures Reached(cfg, s, Finalizing(ids)) == s.(db := Reached(cfg, s, Finalizing(ids)).db)
    ensures var d := Reached(cfg, s, Finalizing(ids)).db;
            d.checks.Keys == s.db.checks.Keys && forall id | id in ids && id in d.checks ::
                !Overdue(d.checks[id], s.now)
    decreases |ids|
  {
    hide Inv, Moves, MaybeFinalize, Overdue, Step;
    if ids != [] {
      var pre, last := ids[..|ids| - 1], ids[|ids| - 1];
      assert Finalizing(ids)[..|ids| - 1] == Finalizing(pre);
      FinalizingSettles(cfg, s, pre);
      RestMoves(cfg, s, Finalizing(pre));
      var m := Reached(cfg, s, Finalizing(pre));
      OneFinalized(cfg, m, last);
      assert ids == pre + [last];
      var d := Reached(cfg, s, Finalizing(ids)).db;
      SameChecks(m.db, d, s.now);
      forall id | id in ids && id in d.checks ensures !Overdue(d.checks[id], s.now) {
        if id in pre { NotOverdueStays(m.db, d, s.now, id); }
      }
    }
  }

  lemma SameChecks(db: Db, next: Db, now: nat)
    requires Moves(db, next, now)
    ensures next.checks.Keys == db.checks.Keys
    ensures forall id | id in db.checks && next.checks[id].state == Evaluating :: next.checks[id] == db.checks[id]
  {}

  lemma NoneSilentStays(db: Db, next: Db, now: nat)
    requires Moves(db, next, now) && NoneSilent(db, now)
    ensures NoneSilent(next, now)
  {
    hide Freshness;
    FreshnessSame(db, next);
    forall id | id in next.runs ensures !Silent(next, now, next.runs[id]) {
      assert DriftOnly(db.runs[id], next.runs[id]) && !Silent(db, now, db.runs[id]);
      SameFreshness(db, db.runs[id], next.runs[id]);
    }
  }

  lemma SameFreshness(db: Db, r: Run, r2: Run)
    requires DriftOnly(r, r2)
    ensures Freshness(db, r2) == Freshness(db, r)
  {}

  lemma AllSettled(db: Db, d: Db, now: Counter)
    requires Moves(AfterTimers(db, now), d, now) && AfterTimers(db, now).reviews.Keys == db.reviews.Keys
    requires NoneSilent(AfterTimers(db, now), now)
    requires forall id | id in AfterTimers(db, now).reviews :: OnTime(AfterTimers(db, now).reviews[id], now)
    ensures NoneSilent(d, now)
    ensures forall id | id in d.reviews :: !LeaseOver(d.reviews[id], now) && !WakeOver(d.reviews[id], now)
    ensures forall id | id in d.reviews && Active(d.reviews[id].state) ::
              EffectiveDue(d.reviews[id]) <= now
              <==> id !in db.reviews && RunPolicy(d, d.reviews[id].run).Some?
                   && RunPolicy(d, d.reviews[id].run).value.reviewTtlMs == 0
  {
    hide AfterTimers, RunPolicy, NoneSilent;
    NoneSilentStays(AfterTimers(db, now), d, now);
    PolicySame(AfterTimers(db, now), d);
    forall id | id in d.reviews ensures !LeaseOver(d.reviews[id], now) && !WakeOver(d.reviews[id], now) {
      if id in AfterTimers(db, now).reviews { assert OnTime(AfterTimers(db, now).reviews[id], now); }
    }
  }

  lemma TimersKeepKeys(db: Db, now: nat)
    requires Inv(db)
    ensures Inv(AfterTimers(db, now)) && AfterTimers(db, now).reviews.Keys == db.reviews.Keys
    ensures AfterTimers(db, now).policies == db.policies
  {
    hide Inv, Extends, TickSilence, TickDue, TickLease, TickWake;
    var d1 := TickSilence(db, now);
    var d2 := TickDue(d1, now);
    var d3 := TickLease(d2, now);
    ReviewTimersKeep(db, now);
    ReviewTimersKeep(d1, now);
    ReviewTimersKeep(d2, now);
    ReviewTimersKeep(d3, now);
    SilenceKeys(db, now);
    DueKeys(d1, now);
    LeaseKeys(d2, now);
    WakeKeys(d3, now);
  }

  lemma SilenceKeys(db: Db, now: nat)
    ensures TickSilence(db, now).reviews == db.reviews && TickSilence(db, now).policies == db.policies
  {
    hide PauseSilent;
  }

  lemma DueKeys(db: Db, now: nat)
    requires Inv(db)
    ensures TickDue(db, now).reviews.Keys == db.reviews.Keys && TickDue(db, now).policies == db.policies
  {
    hide ExpireAll, PoliciesOk, RunsOk, StreamsOk, ChecksOk, ReviewsOk, ClearsOk, Kept;
    Keyed(db);
    ExpireAllMap(db, now, DueReviews(db, now));
  }

  lemma LeaseKeys(db: Db, now: nat)
    requires Inv(db)
    ensures TickLease(db, now).reviews.Keys == db.reviews.Keys && TickLease(db, now).policies == db.policies
  {
    hide ReleaseAll, PoliciesOk, RunsOk, StreamsOk, ChecksOk, ReviewsOk, ClearsOk, Kept, LeaseOver;
    Keyed(db);
    ReleaseAllMap(db, now, LeaseIds(db, now));
  }

  lemma WakeKeys(db: Db, now: nat)
    requires Inv(db)
    ensures TickWake(db, now).reviews.Keys == db.reviews.Keys && TickWake(db, now).policies == db.policies
  {
    hide WakeAll, PoliciesOk, RunsOk, StreamsOk, ChecksOk, ReviewsOk, ClearsOk, Kept, WakeOver;
    Keyed(db);
    WakeAllMap(db, now, WakeIds(db, now));
  }

  /** What follows the finalizations of a tick. */
  function Tail(live: seq<Id>, taken: set<(Id, Id)>, replies: seq<Completion>): seq<Action> {
    Passing(live) + [Outbox(taken)] + Replying(replies)
  }

  lemma RestAppends(a: seq<Action>, b: seq<Action>)
    requires AllRest(a) && AllRest(b)
    ensures AllRest(a + b)
  {
    hide Rest;
  }

  lemma ListsAreRest(ids: seq<Id>, replies: seq<Completion>, taken: set<(Id, Id)>)
    ensures AllRest(Finalizing(ids)) && AllRest(Passing(ids)) && AllRest([Outbox(taken)]) && AllRest(Replying(replies))
  {}

  /** Everything after the timers of a tick only moves things. */
  lemma LaterIsRest(db: Db, taken: set<(Id, Id)>, replies: seq<Completion>)
    ensures LaterActions(db, taken, replies)
            == Finalizing(EvaluatingIds(db, None)) + Tail(LiveRunIds(db), taken, replies)
    ensures AllRest(Finalizing(EvaluatingIds(db, None))) && AllRest(Tail(LiveRunIds(db), taken, replies))
    ensures AllRest(LaterActions(db, taken, replies))
  {
    hide AllRest;
    var a, b, c := Finalizing(EvaluatingIds(db, None)), Passing(LiveRunIds(db)), Replying(replies);
    ListsAreRest(EvaluatingIds(db, None), replies, taken);
    ListsAreRest(LiveRunIds(db), replies, taken);
    RestAppends(b, [Outbox(taken)]);
    RestAppends(b + [Outbox(taken)], c);
    RestAppends(a, b + [Outbox(taken)] + c);
    assert a + b + [Outbox(taken)] + c == a + (b + [Outbox(taken)] + c);
  }

  /** A tick is its timers followed by the rest. */
  lemma TickSplits(cfg: Config, s: Sys, taken: set<(Id, Id)>, replies: seq<Completion>)
    requires s.up && s.host.state != Faulted
    ensures Reached(cfg, s, TickActions(s.db, s.now, taken, replies))
            == Reached(cfg, s.(db := AfterTimers(s.db, s.now)), LaterActions(AfterTimers(s.db, s.now), taken, replies))
  {
    hide AfterTimers, Reached, LaterActions;
    AfterReviews(cfg, s);
    ReachedSplits(cfg, s, [Silence, Due, Lease, Wake], LaterActions(AfterTimers(s.db, s.now), taken, replies));
  }

  /** After a tick no run is silent, no check is past its deadline and no lease or wake has passed. An active review is
      due if and only if this very tick opened it under a policy whose review lifetime is zero. */
  lemma TickSettles(cfg: Config, s: Sys, taken: set<(Id, Id)>, replies: seq<Completion>)
    requires Inv(s.db) && s.up && s.host.state != Faulted
    ensures var d := Reached(cfg, s, TickActions(s.db, s.now, taken, replies)).db;
            && NoneSilent(d, s.now)
            && (forall id | id in d.checks :: !Overdue(d.checks[id], s.now))
            && (forall id | id in d.reviews :: !LeaseOver(d.reviews[id], s.now) && !WakeOver(d.reviews[id], s.now))
            && (forall id | id in d.reviews && Active(d.reviews[id].state) ::
                  EffectiveDue(d.reviews[id]) <= s.now
                  <==> id !in s.db.reviews && RunPolicy(d, d.reviews[id].run).Some?
                       && RunPolicy(d, d.reviews[id].run).value.reviewTtlMs == 0)
  {
    hide Inv, Moves, Reached, AfterTimers, NoneSilent, OnTime, LeaseOver, WakeOver, EffectiveDue, RunPolicy, Overdue,
         TickActions, LaterActions, AllRest;
    var m := s.(db := AfterTimers(s.db, s.now));
    var rest := LaterActions(m.db, taken, replies);
    TickSplits(cfg, s, taken, replies);
    TimersKeepKeys(s.db, s.now);
    TimersSettle(s.db, s.now);
    LaterIsRest(m.db, taken, replies);
    RestMoves(cfg, m, rest);
    AllSettled(s.db, Reached(cfg, m, rest).db, s.now);
    ChecksSeenTo(cfg, m, taken, replies);
  }

  lemma ChecksSeenTo(cfg: Config, m: Sys, taken: set<(Id, Id)>, replies: seq<Completion>)
    requires Inv(m.db) && m.up && m.host.state != Faulted
    ensures var d := Reached(cfg, m, LaterActions(m.db, taken, replies)).db;
            forall id | id in d.checks :: !Overdue(d.checks[id], m.now)
  {
    hide Inv, Moves, Reached, Overdue, AllRest, LaterActions, Tail;
    var ids := EvaluatingIds(m.db, None);
    var tail := Tail(LiveRunIds(m.db), taken, replies);
    LaterIsRest(m.db, taken, replies);
    RestMoves(cfg, m, LaterActions(m.db, taken, replies));
    FinalizingSettles(cfg, m, ids);
    RestMoves(cfg, m, Finalizing(ids));
    var f := Reached(cfg, m, Finalizing(ids));
    ReachedSplits(cfg, m, Finalizing(ids), tail);
    RestMoves(cfg, f, tail);
    NoneOverdue(m.db, f.db, Reached(cfg, m, LaterActions(m.db, taken, replies)).db, m.now, ids);
  }

  /** Checks that were not EVALUATING before the finalizations stay out; those that were have been seen to. */
  lemma NoneOverdue(m: Db, f: Db, d: Db, now: nat, ids: seq<Id>)
    requires Moves(m, f, now) && Moves(f, d, now) && Moves(m, d, now)
    requires forall id | id in m.checks && m.checks[id].state == Evaluating :: id in ids
    requires forall id | id in ids && id in f.checks :: !Overdue(f.checks[id], now)
    ensures forall id | id in d.checks :: !Overdue(d.checks[id], now)
  {
    hide Moves, Overdue;
    SameChecks(m, f, now);
    SameChecks(f, d, now);
    forall id | id in d.checks ensures !Overdue(d.checks[id], now) {
      if id in ids { NotOverdueStays(f, d, now, id); } else { NotEvaluating(m, d, now, id); }
    }
  }

  lemma NotEvaluating(db: Db, next: Db, now: nat, id: Id)
    requires Moves(db, next, now) && id in db.checks && db.checks[id].state != Evaluating
    ensures !Overdue(next.checks[id], now)
  {}

  // ---- the next instant the event loop waits for ----

  /** Every instant `next_due` takes the minimum of, except the outbox's. */
  ghost predicate Candidate(db: Db, t: nat) {
    || (exists id :: id in db.checks && db.checks[id].state == Evaluating && db.checks[id].deadlineMs == t)
    || (exists id :: id in db.reviews && Active(db.reviews[id].state) && db.reviews[id].dueMs == t)
    || (exists id :: id in db.reviews && db.reviews[id].state == Claimed && db.reviews[id].leaseUntilMs == Some(t))
    || (exists id :: id in db.reviews && db.reviews[id].state == Deferred && db.reviews[id].wakeMs == Some(t))
    || (exists id :: id in db.reviews && db.reviews[id].state == Accepted && db.reviews[id].acceptedUntilMs == Some(t))
  }

  /** Nothing falls due before the earliest of them: as long as none has come, no check is past its deadline, no active
      review is due, and no lease or wake time is over. */
  lemma SleepIsSafe(db: Db, t: nat)
    requires forall c: nat | Candidate(db, c) :: c > t
    ensures forall id | id in db.checks :: !Overdue(db.checks[id], t)
    ensures forall id | id in db.reviews :: OnTime(db.reviews[id], t)
  {
    forall id | id in db.checks && db.checks[id].state == Evaluating ensures db.checks[id].deadlineMs > t {
      assert Candidate(db, db.checks[id].deadlineMs);
    }
    forall id | id in db.reviews ensures OnTime(db.reviews[id], t) {
      var v := db.reviews[id];
      if Active(v.state) { assert Candidate(db, v.dueMs); }
      if v.state == Accepted && v.acceptedUntilMs.Some? { assert Candidate(db, v.acceptedUntilMs.value); }
      if v.state == Claimed && v.leaseUntilMs.Some? { assert Candidate(db, v.leaseUntilMs.value); }
      if v.state == Deferred && v.wakeMs.Some? { assert Candidate(db, v.wakeMs.value); }
    }
  }

  /** With review lifetimes positive, the event loop always sleeps until something later than now. */
  lemma NextDueIsLater(cfg: Config, s: Sys, taken: set<(Id, Id)>, replies: seq<Completion>, t: nat)
    requires Inv(s.db) && s.up && s.host.state != Faulted
    requires forall i | 0 <= i < |s.db.policies| :: s.db.policies[i].reviewTtlMs > 0
    requires Candidate(Reached(cfg, s, TickActions(s.db, s.now, taken, replies)).db, t)
    ensures t > s.now
  {
    hide Inv, Reached, PolicyIn, NoneSilent, TickActions;
    TickSettles(cfg, s, taken, replies);
    TickKeepsPolicies(cfg, s, taken, replies);
    var d := Reached(cfg, s, TickActions(s.db, s.now, taken, replies)).db;
    forall id | id in d.reviews && Active(d.reviews[id].state) ensures EffectiveDue(d.reviews[id]) > s.now {
      if RunPolicy(d, d.reviews[id].run).Some? { PolicyIsThere(d.policies, d.runs[d.reviews[id].run].policy); }
    }
  }

  lemma PolicyIsThere(policies: seq<Policy>, d: Digest)
    requires PolicyIn(policies, d).Some?
    ensures PolicyIn(policies, d).value in policies
  {}

  lemma TickKeepsPolicies(cfg: Config, s: Sys, taken: set<(Id, Id)>, replies: seq<Completion>)
    requires Inv(s.db) && s.up && s.host.state != Faulted
    ensures Reached(cfg, s, TickActions(s.db, s.now, taken, replies)).db.policies == s.db.policies
  {
    hide Inv, Reached, AfterTimers, Moves, TickActions, LaterActions, AllRest;
    var m := s.(db := AfterTimers(s.db, s.now));
    var rest := LaterActions(m.db, taken, replies);
    TickSplits(cfg, s, taken, replies);
    TimersKeepKeys(s.db, s.now);
    LaterIsRest(m.db, taken, replies);
    RestMoves(cfg, m, rest);
    SamePolicies(m.db, Reached(cfg, m, rest).db, s.now);
  }

  lemma SamePolicies(db: Db, next: Db, now: nat)
    requires Moves(db, next, now)
    ensures next.policies == db.policies
  {}
}
