/** A check is decided in the first tick in which nothing more is waited for: the timers finalize every check that is
    ripe, a reply finalizes the check it ripens, and nothing else in a tick ripens one. */
module Prompt {
  import opened Basics
  import opened Ids
  import opened Records
  import opened Store
  import opened Protocol
  import opened Timers
  import opened Safety
  import opened Invariants
  import opened TimersKeep
  import opened System
  import opened Guarantees
  import opened Punctual
  import opened Outcomes
  import D = DriftReducer

  /** The check is EVALUATING though it waits for nothing more. */
  predicate Ripe(db: Db, now: nat, id: Id) {
    id in db.checks && db.checks[id].state == Evaluating && Unawaited(BoardOf(db, id), now, db.checks[id])
  }

  ghost predicate NoneRipens(db: Db, next: Db, now: nat) {
    forall id :: Ripe(next, now, id) ==> Ripe(db, now, id)
  }

  lemma SameRows(db: Db, next: Db, now: nat)
    requires next.checks == db.checks && next.slots == db.slots
    ensures NoneRipens(db, next, now)
  {}

  lemma OneEnds(db: Db, d: Db, c: Check, now: nat)
    requires d.slots == db.slots && d.checks == db.checks[c.id := c] && c.state != Evaluating
    ensures NoneRipens(db, d, now) && !Ripe(d, now, c.id)
  {
    hide Unawaited;
  }

  lemma ConcludedIsOver(db: Db, d: Db, now: nat, c: Check, r: Run, p: Policy, o: Observation, slots: Board)
    requires Concludes(db, d, now, c, r, p, o, slots)
    ensures NoneRipens(db, d, now) && !Ripe(d, now, c.id)
  {
    hide Answers, Outdated, Missing, Saying, ReasonOf, Unsettled, QueueFull, Standing, Pays, LifeEnds, NoneRipens, Ripe,
         Least, BasisOf;
    assert c.id in d.checks && d.checks == db.checks[c.id := d.checks[c.id]] && d.checks[c.id].state != Evaluating;
    assert d.checks[c.id].id == c.id && d.slots == db.slots;
    OneEnds(db, d, d.checks[c.id], now);
  }

  lemma FinalizedIsOver(db: Db, now: nat, id: Id)
    requires Inv(db)
    ensures NoneRipens(db, MaybeFinalize(db, now, id), now) && !Ripe(MaybeFinalize(db, now, id), now, id)
  {
    hide Inv, Concludes, MaybeFinalize, PolicyIn, RefIn, Unawaited;
    MustConclude(db, now, id);
    if id in db.checks && db.checks[id].state == Evaluating && Unawaited(BoardOf(db, id), now, db.checks[id]) {
      var c := db.checks[id];
      EvaluatingStands(db, id);
      ConcludedIsOver(db, MaybeFinalize(db, now, id), now, c, db.runs[c.run], PolicyOf(db, c.policy).value,
                      ByRef(db, c.observation).value, BoardOf(db, id));
    }
  }

  /** A reply ripens at most its own check, and that one it finalizes. */
  lemma ReplyRipensNone(db: Db, host: HostState, epoch: nat, now: nat, k: Completion)
    requires Inv(db)
    ensures NoneRipens(db, ApplyReply(db, host, epoch, now, k).0, now)
  {
    hide Inv, StoreReply, MaybeFinalize, Unawaited, Recompute, NextEvent;
    var (d, h, again) := StoreReply(db, host, epoch, now, k);
    MustStore(db, host, epoch, now, k);
    if again {
      StoreKeeps(db, host, epoch, now, k);
      FinalizedIsOver(d, now, k.check);
    }
  }

  lemma AttemptRipensNone(db: Db, now: nat, id: Id, start: nat)
    ensures var d := Attempted(db, now, id, start); d.checks == db.checks && d.slots == db.slots
  {
    hide Missed, D.Next, Put, PolicyIn;
    if !(id !in db.runs || db.runs[id].state !in {Open, Paused} || RunPolicy(db, id).None?) {
      var r, p := db.runs[id], RunPolicy(db, id).value;
      var m, w := Marked(db, id, start), AWindow(id, start, Missed(db, r, p));
      PutFrame(m, now, TrailingEvaluated, w);
      PutFrame(Put(m, now, TrailingEvaluated, w), now, DriftUpdated,
               ARun(r.(drift := D.Next(r.drift, D.Slot(start, D.NoWindow), p), revision := r.revision + 1)));
    }
  }

  lemma {:induction false} PassRipensNone(db: Db, now: nat, id: Id, starts: seq<nat>)
    ensures var d := AttemptAll(db, now, id, starts); d.checks == db.checks && d.slots == db.slots
    decreases |starts|
  {
    hide Attempted;
    if starts != [] {
      AttemptRipensNone(db, now, id, starts[0]);
      PassRipensNone(Attempted(db, now, id, starts[0]), now, id, starts[1..]);
    }
  }

  predicate Later(a: Action) { a.FinalizeOne? || a.Windows? || a.Outbox? || a.MonitorReply? }

  /** No step after the timers ripens a check, and a finalization leaves its own not ripe. */
  lemma StepRipensNone(cfg: Config, s: Sys, a: Action)
    requires Inv(s.db) && Later(a)
    ensures Step(cfg, s, a).now == s.now && NoneRipens(s.db, Step(cfg, s, a).db, s.now)
    ensures a.FinalizeOne? && s.up && s.host.state != Faulted ==>
              Step(cfg, s, a) == s.(db := Step(cfg, s, a).db) && !Ripe(Step(cfg, s, a).db, s.now, a.check)
  {
    hide Inv, MaybeFinalize, ApplyReply, AttemptAll, NoneRipens, Ripe, DueWindows, FirstStart;
    SameRows(s.db, s.db, s.now);
    match a
    case FinalizeOne(c) => FinalizedIsOver(s.db, s.now, c);
    case MonitorReply(k) => ReplyRipensNone(s.db, s.host.state, s.host.epoch, s.now, k);
    case Windows(run) =>
      PassRipensNone(s.db, s.now, run, DueWindows(s.db.windows, run, s.now, FirstStart(s.db.audit, run), 0));
      SameRows(s.db, PassWindows(s.db, s.now, run), s.now);
    case Outbox(sent) => SameRows(s.db, TickOutbox(s.db, sent), s.now);
  }

  ghost predicate AllLater(acts: seq<Action>) { forall i | 0 <= i < |acts| :: Later(acts[i]) }

  lemma {:induction false} LaterRipensNone(cfg: Config, s: Sys, acts: seq<Action>)
    requires Inv(s.db) && AllLater(acts)
    ensures Inv(Reached(cfg, s, acts).db) && Reached(cfg, s, acts).now == s.now
    ensures NoneRipens(s.db, Reached(cfg, s, acts).db, s.now)
    decreases |acts|
  {
    hide Inv, Step, Ripe, Later;
    if acts != [] {
      var pre, a := acts[..|acts| - 1], acts[|acts| - 1];
      LaterRipensNone(cfg, s, pre);
      StepKeeps(cfg, Reached(cfg, s, pre), a);
      StepRipensNone(cfg, Reached(cfg, s, pre), a);
    }
  }

  /** Finalizing a list of checks leaves none of them ripe. */
  lemma {:induction false} ListIsDecided(cfg: Config, s: Sys, ids: seq<Id>)
    requires Inv(s.db) && s.up && s.host.state != Faulted
    ensures var t := Reached(cfg, s, Finalizing(ids));
            && Inv(t.db) && t == s.(db := t.db) && NoneRipens(s.db, t.db, s.now)
            && forall id | id in ids :: !Ripe(t.db, s.now, id)
    decreases |ids|
  {
    hide Inv, Step, Ripe;
    if ids != [] {
      var pre, id := ids[..|ids| - 1], ids[|ids| - 1];
      ListIsDecided(cfg, s, pre);
      assert Finalizing(ids)[..|ids| - 1] == Finalizing(pre);
      StepKeeps(cfg, Reached(cfg, s, Finalizing(pre)), FinalizeOne(id));
      StepRipensNone(cfg, Reached(cfg, s, Finalizing(pre)), FinalizeOne(id));
      assert ids == pre + [id];
    }
  }

  lemma TailIsLater(live: seq<Id>, taken: set<(Id, Id)>, replies: seq<Completion>)
    ensures AllLater(Tail(live, taken, replies))
  {}

  /** Over any run, no check is still EVALUATING after a tick unless its deadline lies ahead and it waits for a monitor
      that has not answered and whose own deadline lies ahead. */
  lemma NoneLeftRipe(cfg: Config, acts: seq<Action>, taken: set<(Id, Id)>, replies: seq<Completion>)
    requires Reached(cfg, COLD, acts).up && Reached(cfg, COLD, acts).host.state != Faulted
    ensures var s := Reached(cfg, COLD, acts);
            var d := Reached(cfg, s, TickActions(s.db, s.now, taken, replies)).db;
            forall id | id in d.checks && d.checks[id].state == Evaluating ::
              && s.now < d.checks[id].deadlineMs
              && id in d.slots && exists m :: m in d.slots[id] && d.slots[id][m].state != Done
                                              && d.slots[id][m].state != Timeout && s.now < d.slots[id][m].deadlineMs
  {
    hide Inv, Reached, AfterTimers, TickActions, LaterActions, NoneRipens, Ripe;
    var s := Reached(cfg, COLD, acts);
    Always(cfg, acts, |acts|);
    var m := s.(db := AfterTimers(s.db, s.now));
    var ids, tail := EvaluatingIds(m.db, None), Tail(LiveRunIds(m.db), taken, replies);
    TickSplits(cfg, s, taken, replies);
    TimersKeepKeys(s.db, s.now);
    LaterIsRest(m.db, taken, replies);
    ReachedSplits(cfg, m, Finalizing(ids), tail);
    ListIsDecided(cfg, m, ids);
    TailIsLater(LiveRunIds(m.db), taken, replies);
    LaterRipensNone(cfg, Reached(cfg, m, Finalizing(ids)), tail);
    var d := Reached(cfg, m, LaterActions(m.db, taken, replies)).db;
    NoneWasRipe(m.db, Reached(cfg, m, Finalizing(ids)).db, d, s.now);
    UnripeWaits(d, s.now);
  }

  lemma UnripeWaits(d: Db, now: nat)
    requires forall id :: !Ripe(d, now, id)
    ensures forall id | id in d.checks && d.checks[id].state == Evaluating ::
              && now < d.checks[id].deadlineMs
              && id in d.slots && exists m :: m in d.slots[id] && d.slots[id][m].state != Done
                                              && d.slots[id][m].state != Timeout && now < d.slots[id][m].deadlineMs
  {
    forall id | id in d.checks && d.checks[id].state == Evaluating
      ensures now < d.checks[id].deadlineMs && id in d.slots
      ensures exists m :: m in d.slots[id] && d.slots[id][m].state != Done && d.slots[id][m].state != Timeout
                          && now < d.slots[id][m].deadlineMs
    {
      assert !Ripe(d, now, id);
      assert id in d.slots;
    }
  }

  lemma NoneWasRipe(a: Db, b: Db, c: Db, now: nat)
    requires NoneRipens(a, b, now) && NoneRipens(b, c, now)
    requires forall id | id in EvaluatingIds(a, None) :: !Ripe(b, now, id)
    ensures forall id :: !Ripe(c, now, id)
  {
    hide Unawaited, EvaluatingIds;
    forall id ensures !Ripe(c, now, id) {
      assert Ripe(c, now, id) ==> Ripe(b, now, id);
    }
  }
}
