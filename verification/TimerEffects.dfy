/** What timers and the recovery transaction must do: exactly which runs, checks and reviews change, to what, and that
    no other row does. */
module TimerEffects {
  import opened Basics
  import opened Ids
  import opened Records
  import opened Store
  import opened Protocol
  import opened Timers
  import opened Steps
  import opened Effects
  import opened Reviewing
  import opened Punctual

  // ---- run silence ----

  /** How long the run's policy lets its source be silent. */
  function Patience(db: Db, r: Run): nat {
    if r.policy.OfPolicy? && r.policy.policy in db.policies then r.policy.policy.freshnessMs else 2000
  }

  /** The OPEN runs whose source has told nothing for so long. */
  function FallenSilent(db: Db, now: nat): set<Id> {
    set id | id in db.runs && db.runs[id].state == Open && db.runs[id].lastReceivedMs.Some?
             && !Fresh(now, db.runs[id].lastReceivedMs.value, Patience(db, db.runs[id]))
  }

  ghost predicate FallSilent(db: Db, d: Db, ids: set<Id>) {
    && KeepsRest(db, d) && d.reviews == db.reviews
    && RunsHalt(db.runs, d.runs, ids, Paused, "SOURCE_SILENCE")
    && ChecksEnd(db.checks, d.checks, Some(ids), Stale, "STALE")
  }

  lemma NoneFallSilent(db: Db)
    ensures FallSilent(db, db, {})
  {}

  lemma OneFallsSilent(db: Db, now: nat, id: Id)
    requires KeyedRows(db) && id in db.runs
    ensures var d := StaleChecks(Put(db, now, RunPaused, ARun(Halt(db.runs[id], Paused, "SOURCE_SILENCE"))), now, id);
            FallSilent(db, d, {id})
  {
    hide Put, FinishAll, RunsHalt, ChecksEnd;
    HaltedWithChecks(db, now, RunPaused, id, Paused, "SOURCE_SILENCE", Stale, "STALE");
  }

  lemma FallSilentThen(a: Db, b: Db, c: Db, id: Id, ids: set<Id>)
    requires FallSilent(a, b, {id}) && FallSilent(b, c, ids) && id !in ids
    ensures FallSilent(a, c, ids + {id})
  {
    hide RunsHalt, ChecksEnd;
    RunsHaltThen(a.runs, b.runs, c.runs, id, ids, Paused, "SOURCE_SILENCE");
    ChecksEndThen(a.checks, b.checks, c.checks, id, ids);
  }

  lemma OthersStayOpen(db: Db, d: Db, id: Id, rest: seq<Id>)
    requires FallSilent(db, d, {id}) && KeyedRows(db) && HasRuns(db, rest)
    requires forall i | 0 <= i < |rest| :: rest[i] != id && db.runs[rest[i]].state == Open
    ensures KeyedRows(d) && HasRuns(d, rest) && forall i | 0 <= i < |rest| :: d.runs[rest[i]].state == Open
  {}

  lemma {:induction false} PauseSilentDoes(db: Db, now: nat, ids: seq<Id>)
    requires KeyedRows(db) && HasRuns(db, ids) && forall i, j | 0 <= i < j < |ids| :: ids[i] != ids[j]
    requires forall i | 0 <= i < |ids| :: db.runs[ids[i]].state == Open
    ensures FallSilent(db, PauseSilent(db, now, ids), Members(ids))
    decreases |ids|
  {
    hide Put, FinishAll, FallSilent, KeyedRows, Members;
    if ids == [] {
      NoMembers();
      NoneFallSilent(db);
    } else {
      var id, rest := ids[0], ids[1..];
      var d := StaleChecks(Put(db, now, RunPaused, ARun(Halt(db.runs[id], Paused, "SOURCE_SILENCE"))), now, id);
      OneFallsSilent(db, now, id);
      OthersStayOpen(db, d, id, rest);
      PauseSilentDoes(d, now, rest);
      FirstAndRest(ids);
      FallSilentThen(db, d, PauseSilent(d, now, rest), id, Members(rest));
    }
  }

  /** The run timer pauses the OPEN runs whose source has been silent for as long as their policy allows, with their
      checks; nothing else moves. */
  lemma SilenceDoes(db: Db, now: nat)
    requires KeyedRows(db)
    ensures FallSilent(db, TickSilence(db, now), FallenSilent(db, now))
  {
    hide PauseSilent, FallSilent;
    var ids := SilentRuns(db, now);
    assert forall i | 0 <= i < |ids| :: ids[i] in ids;
    PauseSilentDoes(db, now, ids);
    MembersAre(ids, FallenSilent(db, now));
  }

  // ---- reviews ----

  /** When an active review ends by itself: at its due instant, an accepted one no later than its acceptance does. */
  function Limit(v: Review): nat {
    if v.state == Accepted && v.acceptedUntilMs.Some? && v.acceptedUntilMs.value < v.dueMs then v.acceptedUntilMs.value
    else v.dueMs
  }

  function AfterDue(reviews: map<Id, Review>, now: nat): map<Id, Review> {
    map id | id in reviews ::
      if Waits(reviews[id]) && Limit(reviews[id]) <= now then ExpiredOf(reviews[id]) else reviews[id]
  }

  function AfterLease(reviews: map<Id, Review>, now: nat): map<Id, Review> {
    map id | id in reviews ::
      var v := reviews[id];
      if v.state == Claimed && v.leaseUntilMs.Some? && v.leaseUntilMs.value <= now < v.dueMs then BackInQueue(v) else v
  }

  function AfterWake(reviews: map<Id, Review>, now: nat): map<Id, Review> {
    map id | id in reviews ::
      var v := reviews[id];
      if v.state == Deferred && v.wakeMs.Some? && v.wakeMs.value <= now < v.dueMs
      then v.(state := ROpen, revision := v.revision + 1, wakeMs := None) else v
  }

  /** Only reviews change, to these. */
  ghost predicate ReviewsMap(db: Db, d: Db, reviews: map<Id, Review>) {
    KeepsRest(db, d) && d.runs == db.runs && d.checks == db.checks && d.reviews == reviews
  }

  /** The due timer expires exactly the active reviews whose time is up. */
  lemma DueDoes(db: Db, now: nat)
    requires KeyedRows(db)
    ensures ReviewsMap(db, TickDue(db, now), AfterDue(db.reviews, now))
  {
    hide ExpireAll, DueReviews, Waits, Limit;
    DueAre(db, now);
    ExpireAllMap(db, now, DueReviews(db, now));
  }

  lemma DueAre(db: Db, now: nat)
    ensures forall id | id in db.reviews ::
              id in DueReviews(db, now) <==> Waits(db.reviews[id]) && Limit(db.reviews[id]) <= now
  {}

  /** The lease timer puts exactly the claimed reviews whose lease is over back into the queue, unless they are due. */
  lemma LeaseDoes(db: Db, now: nat)
    requires KeyedRows(db)
    ensures ReviewsMap(db, TickLease(db, now), AfterLease(db.reviews, now))
  {
    hide ReleaseAll;
    ReleaseAllMap(db, now, LeaseIds(db, now));
  }

  /** The wake timer reopens exactly the deferred reviews whose wake time has come, unless they are due. */
  lemma WakeDoes(db: Db, now: nat)
    requires KeyedRows(db)
    ensures ReviewsMap(db, TickWake(db, now), AfterWake(db.reviews, now))
  {
    hide WakeAll;
    WakeAllMap(db, now, WakeIds(db, now));
  }

  // ---- restart ----

  lemma {:induction false} PauseAllDoes(db: Db, now: nat, ids: seq<Id>)
    requires KeyedRows(db) && HasRuns(db, ids) && forall i, j | 0 <= i < j < |ids| :: ids[i] != ids[j]
    ensures RunsHalt(db.runs, PauseAll(db, now, ids).runs, Members(ids), Paused, "RESTART")
    decreases |ids|
  {
    hide Put, RunsHalt, KeyedRows, Members;
    if ids == [] {
      NoMembers();
      NoneHalt(db.runs, Paused, "RESTART");
    } else {
      var id, rest := ids[0], ids[1..];
      var r := Halt(db.runs[id], Paused, "RESTART");
      var d := Put(db, now, RunPaused, ARun(r));
      RunsKeyed(db, id);
      PutFrame(db, now, RunPaused, ARun(r));
      HaltedRow(db.runs, id, Paused, "RESTART");
      StillKeyedRuns(db, d, r);
      PauseAllDoes(d, now, rest);
      FirstAndRest(ids);
      RunsHaltThen(db.runs, d.runs, PauseAll(d, now, rest).runs, id, Members(rest), Paused, "RESTART");
    }
  }

  lemma NoneHalt(runs: map<Id, Run>, state: RunState, why: string)
    ensures RunsHalt(runs, runs, {}, state, why)
  {}

  lemma RunsKeyed(db: Db, id: Id)
    requires KeyedRows(db) && id in db.runs
    ensures db.runs[id].id == id && forall k | k in db.runs :: db.runs[k].id == k
  {}

  lemma StillKeyedRuns(db: Db, d: Db, r: Run)
    requires KeyedRows(db) && d.runs == db.runs[r.id := r] && d.checks == db.checks && d.reviews == db.reviews
    ensures KeyedRows(d)
  {}

  /** Recovery pauses every OPEN run, expires every active review and every EVALUATING check; nothing else moves. */
  ghost predicate Recovers(db: Db, d: Db) {
    && RunsHalt(db.runs, d.runs, (set id | id in db.runs && db.runs[id].state == Open), Paused, "RESTART")
    && ReviewsExpire(db.reviews, d.reviews, None)
    && ChecksEnd(db.checks, d.checks, None, CExpired, "RESTART")
    && KeepsRest(db, d)
  }

  lemma RecoveredDoes(db: Db, now: nat)
    requires KeyedRows(db)
    ensures Recovers(db, Recovered(db, now))
  {
    hide PauseAll, ExpireAll, FinishAll, OpenRunIds, Members, RunsHalt, ReviewsExpire, ChecksEnd;
    var d1 := PauseAll(db, now, OpenRunIds(db));
    var d2 := ExpireAll(d1, now, ActiveReviewIds(d1, None));
    OpenRunsAre(db);
    PauseAllDoes(db, now, OpenRunIds(db));
    ExpiredRows(d1, now, None);
    FinishedRows(d2, now, None, CExpired, "RESTART");
  }
}
