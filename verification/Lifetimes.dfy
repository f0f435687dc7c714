/** When a tick may leave a review due: a condition on the tables before it. */
module Lifetimes {
  import opened Basics
  import opened Ids
  import opened Records
  import opened Store
  import opened Detect
  import opened Protocol
  import opened Timers
  import opened Safety
  import opened Invariants
  import opened TimersKeep
  import opened System
  import opened Punctual

  predicate Live(r: Run) { r.state in {Open, Paused} }

  /** Every run a review may be opened for gives its reviews a positive lifetime. */
  ghost predicate Lasting(db: Db) {
    forall id | id in db.runs && Live(db.runs[id]) && RunPolicy(db, id).Some? :: RunPolicy(db, id).value.reviewTtlMs > 0
  }

  ghost predicate NoneDue(db: Db, now: nat) {
    forall id | id in db.reviews && Active(db.reviews[id].state) :: EffectiveDue(db.reviews[id]) > now
  }

  function Ticked(cfg: Config, s: Sys, taken: set<(Id, Id)>, replies: seq<Completion>): Db {
    Reached(cfg, s, TickActions(s.db, s.now, taken, replies)).db
  }

  // ---- the timers keep runs alive ----

  ghost predicate SameLives(db: Db, next: Db) {
    && next.runs.Keys == db.runs.Keys && next.policies == db.policies
    && forall id | id in db.runs ::
         next.runs[id].policy == db.runs[id].policy && (Live(next.runs[id]) <==> Live(db.runs[id]))
  }

  lemma LastingSame(db: Db, next: Db)
    requires SameLives(db, next)
    ensures Lasting(next) <==> Lasting(db)
  {
    hide PolicyIn, Live;
    assert forall id :: RunPolicy(next, id) == RunPolicy(db, id);
    assert forall id :: id in next.runs <==> id in db.runs;
  }

  lemma {:induction false} PauseSilentLives(db: Db, now: nat, ids: seq<Id>)
    requires HasRuns(db, ids) && Named(db)
    ensures SameLives(db, PauseSilent(db, now, ids))
    decreases |ids|
  {
    hide RowOf, NextEvent, FinishAll;
    if ids != [] {
      if db.runs[ids[0]].state != Open {
        PauseSilentLives(db, now, ids[1..]);
      } else {
        var halted := Halt(db.runs[ids[0]], Paused, "SOURCE_SILENCE");
        var d := StaleChecks(Put(db, now, RunPaused, ARun(halted)), now, ids[0]);
        assert SameLives(db, d);
        PauseSilentLives(d, now, ids[1..]);
      }
    }
  }

  lemma TimersKeepLives(db: Db, now: nat)
    requires Inv(db)
    ensures SameLives(db, AfterTimers(db, now))
  {
    hide Kept, PoliciesOk, RunsOk, StreamsOk, ChecksOk, ReviewsOk, ClearsOk, PauseSilent, ExpireAll, ReleaseAll,
         WakeAll;
    Keyed(db);
    PauseSilentLives(db, now, SilentRuns(db, now));
  }

  // ---- enough: positive lifetimes ----

  lemma MovesKeepLives(db: Db, next: Db, now: nat)
    requires Moves(db, next, now)
    ensures SameLives(db, next)
  {
    forall id | id in db.runs
      ensures next.runs[id].policy == db.runs[id].policy && (Live(next.runs[id]) <==> Live(db.runs[id]))
    {
      assert DriftOnly(db.runs[id], next.runs[id]);
    }
  }

  lemma RunsLive(db: Db, id: Id)
    requires Inv(db) && id in db.reviews && Active(db.reviews[id].state)
    ensures db.reviews[id].run in db.runs && Live(db.runs[db.reviews[id].run])
  {
    hide Kept, PoliciesOk, RunsOk, StreamsOk, ChecksOk, ClearsOk;
  }

  lemma LastingAt(db: Db, id: Id)
    requires Lasting(db) && id in db.runs && Live(db.runs[id])
    ensures RunPolicy(db, id).Some? ==> RunPolicy(db, id).value.reviewTtlMs > 0
  {
    hide RunPolicy;
  }

  /** No active review is due after a tick if every OPEN or PAUSED run's policy gives reviews a positive lifetime. */
  lemma LastingSuffices(cfg: Config, s: Sys, taken: set<(Id, Id)>, replies: seq<Completion>)
    requires Inv(s.db) && s.up && s.host.state != Faulted && Lasting(s.db)
    ensures NoneDue(Ticked(cfg, s, taken, replies), s.now)
  {
    hide Inv, Moves, Reached, AfterTimers, NoneSilent, EffectiveDue, RunPolicy, TickActions, LaterActions, SameLives,
         Lasting, AllRest, Live;
    var m := s.(db := AfterTimers(s.db, s.now));
    var rest := LaterActions(m.db, taken, replies);
    var d := Ticked(cfg, s, taken, replies);
    TickSettles(cfg, s, taken, replies);
    TimersKeepLives(s.db, s.now);
    LastingSame(s.db, m.db);
    TickSplits(cfg, s, taken, replies);
    TimersKeepKeys(s.db, s.now);
    LaterIsRest(m.db, taken, replies);
    RestMoves(cfg, m, rest);
    MovesKeepLives(m.db, d, s.now);
    LastingSame(m.db, d);
    forall id | id in d.reviews && Active(d.reviews[id].state) ensures EffectiveDue(d.reviews[id]) > s.now {
      RunsLive(d, id);
      LastingAt(d, d.reviews[id].run);
    }
  }

  // ---- exactly: no finalization opens a hold under a zero lifetime ----

  /** Finalizing check `id` now opens a review. */
  predicate OpensReview(db: Db, now: nat, id: Id): (r: bool)
    ensures r ==> id in db.checks && PolicyOf(db, db.checks[id].policy).Some?
  {
    && id in db.checks && db.checks[id].state == Evaluating
    && ReadyToFinalize(SlotsOf(db, id), now, db.checks[id])
    && var c := db.checks[id];
       && c.run in db.runs && PolicyOf(db, c.policy).Some?
       && var r, p, vec := db.runs[c.run], PolicyOf(db, c.policy).value, SlotVector(SlotsOf(db, id), now);
          && !OutOfDate(db, now, c, r, p) && !(now >= c.deadlineMs && None in vec)
          && var b := CandidateBasis(c, r, ByRef(db, c.observation).value, SettledResults(vec));
             var outcome := Decide(db, now, c, r, p, b, vec);
             outcome.OHeld? && outcome.newReview
  }

  /** It opens one that is due at once. */
  predicate OpensDue(db: Db, now: nat, id: Id) {
    OpensReview(db, now, id) && PolicyOf(db, db.checks[id].policy).value.reviewTtlMs == 0
  }

  /** What one step of a tick opens, if it finalizes a check at all. */
  predicate StepOpensDue(s: Sys, a: Action) {
    && s.up
    && match a
       case FinalizeOne(id) => s.host.state != Faulted && OpensDue(s.db, s.now, id)
       case MonitorReply(k) =>
         var (d, h, again) := StoreReply(s.db, s.host.state, s.host.epoch, s.now, k);
         again && OpensDue(d, s.now, k.check)
       case _ => false
  }

  lemma OutcomeReviews(db: Db, now: nat, c: Check, r: Run, p: Policy, o: Observation, outcome: Outcome,
                       existing: Option<Id>, consumed: Option<Review>, b: Basis)
    requires consumed.Some? ==> consumed.value.id in db.reviews
    ensures var d := ApplyOutcome(db, now, c, r, p, o, outcome, existing, consumed, b);
            if outcome.OHeld? && outcome.newReview
            then d.reviews == db.reviews[ReviewIdFor(c.id) := NewReview(db, now, c, r, p, b, outcome.reason)]
            else forall id | id in d.reviews :: id in db.reviews
                   && (d.reviews[id] == db.reviews[id] || d.reviews[id].state == Consumed)
  {
    hide Put, NewClearance;
    forall d: Db, kind, x ensures Put(d, now, kind, ACheck(x)).reviews == d.reviews {
      PutFrame(d, now, kind, ACheck(x));
    }
    forall d: Db, kind, x: Review ensures Put(d, now, kind, AReview(x)).reviews == d.reviews[x.id := x] {
      PutFrame(d, now, kind, AReview(x));
    }
  }

  /** A finalization opens the review it is said to open, and otherwise at most consumes one. */
  lemma FinalizationReviews(db: Db, now: nat, id: Id)
    requires Inv(db)
    ensures var d := MaybeFinalize(db, now, id);
            if OpensReview(db, now, id)
            then exists v: Review ::
                   && v.state == ROpen
                   && v.dueMs == SatAdd(now, PolicyOf(db, db.checks[id].policy).value.reviewTtlMs)
                   && d.reviews == db.reviews[v.id := v]
            else forall k | k in d.reviews :: k in db.reviews
                   && (d.reviews[k] == db.reviews[k] || d.reviews[k].state == Consumed)
  {
    hide PoliciesOk, RunsOk, StreamsOk, ChecksOk, ReviewsOk, ClearsOk, Kept, Put, ApplyOutcome, OutOfDate, Decide,
         SlotVector, SettledResults, CandidateBasis, ActiveWithBasis, Consumable, ReadyToFinalize, PolicyIn, RefIn;
    Keyed(db);
    if id in db.checks && db.checks[id].state == Evaluating && ReadyToFinalize(SlotsOf(db, id), now, db.checks[id]) {
      var c, vec := db.checks[id], SlotVector(SlotsOf(db, id), now);
      forall s, why { CheckReviews(db, now, Finish(c, s, why)); }
      if c.run in db.runs && PolicyOf(db, c.policy).Some?
         && !OutOfDate(db, now, c, db.runs[c.run], PolicyOf(db, c.policy).value)
         && !(now >= c.deadlineMs && None in vec)
      {
        var r, p, settled := db.runs[c.run], PolicyOf(db, c.policy).value, SettledResults(vec);
        InDate(db, now, c, r, p);
        var o := ByRef(db, c.observation).value;
        var b := CandidateBasis(c, r, o, settled);
        var held, outcome := ActiveWithBasis(db, r.id, b), Decide(db, now, c, r, p, b, vec);
        ConsumableIsAccepted(db, now, c, r, b);
        OutcomeReviews(db, now, c.(results := settled), r, p, o, outcome,
                       if held == {} then None else Some(Least(held)), Consumable(db, now, c, r, b), b);
        if OpensReview(db, now, id) {
          var v := NewReview(db, now, c.(results := settled), r, p, b, outcome.reason);
          assert v.state == ROpen && v.id == ReviewIdFor(id);
        }
      }
    }
  }

  lemma CheckReviews(db: Db, now: nat, c: Check)
    ensures Put(db, now, CheckFinalized, ACheck(c)).reviews == db.reviews
  {
    hide RowOf, NextEvent;
  }

  lemma FinalizationDecides(db: Db, now: Counter, id: Id)
    requires Inv(db) && NoneDue(db, now)
    ensures NoneDue(MaybeFinalize(db, now, id), now) <==> !OpensDue(db, now, id)
  {
    hide Inv, MaybeFinalize, OpensReview, PolicyIn;
    FinalizationReviews(db, now, id);
    var d := MaybeFinalize(db, now, id);
    if OpensReview(db, now, id) {
      var v: Review :| && v.state == ROpen
                       && v.dueMs == SatAdd(now, PolicyOf(db, db.checks[id].policy).value.reviewTtlMs)
                       && d.reviews == db.reviews[v.id := v];
      assert v.id in d.reviews && d.reviews[v.id] == v && Active(v.state) && EffectiveDue(v) == v.dueMs;
    }
  }

  /** From a state without due reviews on, whatever is due was opened since and stays open. */
  lemma DueStays(m: Db, x: Db, y: Db, now: nat)
    requires NoneDue(m, now) && Moves(m, x, now) && Moves(x, y, now) && !NoneDue(x, now)
    ensures !NoneDue(y, now)
  {
    hide RunPolicy;
    var id :| id in x.reviews && Active(x.reviews[id].state) && EffectiveDue(x.reviews[id]) <= now;
    assert id !in m.reviews && x.reviews[id].state == ROpen;
    assert id in y.reviews && y.reviews[id] == x.reviews[id];
  }

  lemma SameReviews(x: Db, y: Db, now: nat)
    requires y.reviews == x.reviews
    ensures NoneDue(y, now) <==> NoneDue(x, now)
  {}

  lemma StepDecides(cfg: Config, m: Db, x: Sys, a: Action)
    requires Inv(x.db) && Rest(a) && NoneDue(m, x.now) && Moves(m, x.db, x.now)
    ensures NoneDue(Step(cfg, x, a).db, x.now) <==> NoneDue(x.db, x.now) && !StepOpensDue(x, a)
  {
    hide Inv, Moves, NoneDue, MaybeFinalize, StoreReply, OpensDue, PassWindows, TickOutbox, Step;
    StepMoves(cfg, x, a);
    if !NoneDue(x.db, x.now) {
      DueStays(m, x.db, Step(cfg, x, a).db, x.now);
    } else if a.FinalizeOne? {
      FinalizationDecides(x.db, x.now, a.check);
      FinalizeStep(cfg, x, a.check);
    } else if a.MonitorReply? {
      var k := a.k;
      var d := StoreReply(x.db, x.host.state, x.host.epoch, x.now, k).0;
      StoreKeeps(x.db, x.host.state, x.host.epoch, x.now, k);
      SafeInv(x.db, d);
      StoreKeepsReviews(x.db, x.host.state, x.host.epoch, x.now, k);
      SameReviews(x.db, d, x.now);
      FinalizationDecides(d, x.now, k.check);
      ReplyStep(cfg, x, k);
    } else {
      QuietReviews(cfg, x, a);
      SameReviews(x.db, Step(cfg, x, a).db, x.now);
    }
  }

  lemma SafeInv(db: Db, next: Db)
    requires Safe(db, next)
    ensures Inv(next)
  {
    hide Inv;
  }

  lemma FinalizeStep(cfg: Config, x: Sys, id: Id)
    ensures Step(cfg, x, FinalizeOne(id)).db
            == if !x.up || x.host.state == Faulted then x.db else MaybeFinalize(x.db, x.now, id)
  {
    hide MaybeFinalize, TickSilence, TickDue, TickLease, TickWake;
  }

  lemma ReplyStep(cfg: Config, x: Sys, k: Completion)
    ensures Step(cfg, x, MonitorReply(k)).db
            == if !x.up then x.db
               else var (d, h, again) := StoreReply(x.db, x.host.state, x.host.epoch, x.now, k);
                    if again then MaybeFinalize(d, x.now, k.check) else d
  {
    hide MaybeFinalize, StoreReply, TickSilence, TickDue, TickLease, TickWake;
  }

  lemma StoreKeepsReviews(db: Db, host: HostState, epoch: nat, now: nat, k: Completion)
    ensures StoreReply(db, host, epoch, now, k).0.reviews == db.reviews
  {
    hide Put, Recompute, SetSlot;
    PutFrame(db, now, HostFaulted, AHost(Host(Faulted, epoch)));
    forall c, m, s ensures SetSlot(db, c, m, s).reviews == db.reviews { SlotKeepsReviews(db, c, m, s); }
  }

  lemma SlotKeepsReviews(db: Db, check: Id, monitor: Id, s: MonitorSlot)
    ensures SetSlot(db, check, monitor, s).reviews == db.reviews
  {}

  lemma AttemptKeepsReviews(db: Db, now: nat, id: Id, start: nat)
    ensures Attempted(db, now, id, start).reviews == db.reviews
  {
    hide Put, Missed, RunPolicy;
    if !(id !in db.runs || db.runs[id].state !in {Open, Paused} || RunPolicy(db, id).None?) {
      var r, p := db.runs[id], RunPolicy(db, id).value;
      var s := AWindow(id, start, Missed(db, r, p));
      var d := Put(Marked(db, id, start), now, TrailingEvaluated, s);
      PutFrame(Marked(db, id, start), now, TrailingEvaluated, s);
      forall r2 ensures Put(d, now, DriftUpdated, ARun(r2)).reviews == d.reviews {
        PutFrame(d, now, DriftUpdated, ARun(r2));
      }
    }
  }

  lemma {:induction false} AttemptAllKeepsReviews(db: Db, now: nat, id: Id, starts: seq<nat>)
    ensures AttemptAll(db, now, id, starts).reviews == db.reviews
    decreases |starts|
  {
    hide Attempted;
    if starts != [] {
      AttemptKeepsReviews(db, now, id, starts[0]);
      AttemptAllKeepsReviews(Attempted(db, now, id, starts[0]), now, id, starts[1..]);
    }
  }

  lemma QuietReviews(cfg: Config, x: Sys, a: Action)
    requires a.Windows? || a.Outbox? || a.Stored?
    ensures Step(cfg, x, a).db.reviews == x.db.reviews
  {
    hide StoreReply, AttemptAll, TickSilence, TickDue, TickLease, TickWake;
    match a
    case Windows(run) =>
      AttemptAllKeepsReviews(x.db, x.now, run,
                             DueWindows(x.db.windows, run, x.now, FirstStart(x.db.audit, run), 0));
    case Stored(k) => StoreKeepsReviews(x.db, x.host.state, x.host.epoch, x.now, k);
    case Outbox(_) =>
  }

  ghost predicate NoneOpensDue(cfg: Config, m: Sys, acts: seq<Action>) {
    forall k | 0 <= k < |acts| :: !StepOpensDue(Reached(cfg, m, acts[..k]), acts[k])
  }

  lemma OneMoreStep(cfg: Config, m: Sys, acts: seq<Action>, n: nat)
    requires |acts| == n + 1
    ensures NoneOpensDue(cfg, m, acts)
            <==> NoneOpensDue(cfg, m, acts[..n]) && !StepOpensDue(Reached(cfg, m, acts[..n]), acts[n])
  {
    hide StepOpensDue, Reached;
    assert forall k | 0 <= k < n :: acts[..n][..k] == acts[..k] && acts[..n][k] == acts[k];
  }

  lemma {:induction false} RestDecides(cfg: Config, m: Sys, acts: seq<Action>)
    requires Inv(m.db) && AllRest(acts) && NoneDue(m.db, m.now)
    ensures NoneDue(Reached(cfg, m, acts).db, m.now) <==> NoneOpensDue(cfg, m, acts)
    decreases |acts|
  {
    hide Inv, NoneDue, Moves, Step, NoneOpensDue, StepOpensDue, Rest;
    if acts == [] {
      assert NoneOpensDue(cfg, m, []) by { NothingOpens(cfg, m); }
    } else {
      var n := |acts| - 1;
      RestDecides(cfg, m, acts[..n]);
      RestMoves(cfg, m, acts[..n]);
      OneMoreStep(cfg, m, acts, n);
      StepDecides(cfg, m.db, Reached(cfg, m, acts[..n]), acts[n]);
    }
  }

  lemma NothingOpens(cfg: Config, m: Sys)
    ensures NoneOpensDue(cfg, m, [])
  {}

  /** A tick leaves no active review due if and only if none of its finalizations, at the point where it is made,
      opens a review under a lifetime of zero. */
  lemma TickDecides(cfg: Config, s: Sys, taken: set<(Id, Id)>, replies: seq<Completion>)
    requires Inv(s.db) && s.up && s.host.state != Faulted
    ensures var m := s.(db := AfterTimers(s.db, s.now));
            NoneDue(Ticked(cfg, s, taken, replies), s.now)
            <==> NoneOpensDue(cfg, m, LaterActions(m.db, taken, replies))
  {
    hide Inv, NoneDue, AfterTimers, Reached, LaterActions, TickActions, AllRest, NoneOpensDue, OnTime;
    var m := s.(db := AfterTimers(s.db, s.now));
    TickSplits(cfg, s, taken, replies);
    TimersKeepKeys(s.db, s.now);
    TimersSettle(s.db, s.now);
    NoneDueOnTime(m.db, s.now);
    LaterIsRest(m.db, taken, replies);
    RestDecides(cfg, m, LaterActions(m.db, taken, replies));
  }

  lemma NoneDueOnTime(db: Db, now: nat)
    requires forall id | id in db.reviews :: OnTime(db.reviews[id], now)
    ensures NoneDue(db, now)
  {
    hide EffectiveDue;
  }
}
