/** One iteration of each entity loop, as the functions over the tables see it. */
module LoopSteps {
  import opened Basics
  import opened Ids
  import opened Records
  import opened Store
  import opened Protocol
  import opened Timers

  lemma ReviewPutKeepsRows(db: Db, now: nat, kind: Kind, v: Review, ids: seq<Id>)
    requires HasReviews(db, ids)
    ensures HasReviews(Put(db, now, kind, AReview(v)), ids)
  {
    hide Put;
    PutFrame(db, now, kind, AReview(v));
  }

  lemma RunPutKeepsRows(db: Db, now: nat, kind: Kind, r: Run, ids: seq<Id>)
    requires HasRuns(db, ids)
    ensures HasRuns(Put(db, now, kind, ARun(r)), ids)
  {
    hide Put;
    PutFrame(db, now, kind, ARun(r));
  }

  lemma FinishStep(db: Db, now: nat, ids: seq<Id>, i: nat, state: CheckState, why: string)
    requires HasChecks(db, ids) && i < |ids|
    ensures var d := Put(db, now, CheckFinalized, ACheck(Finish(db.checks[ids[i]], state, why)));
            HasChecks(d, ids) && FinishAll(db, now, ids[i..], state, why) == FinishAll(d, now, ids[i + 1..], state, why)
  {
    hide Put;
    PutFrame(db, now, CheckFinalized, ACheck(Finish(db.checks[ids[i]], state, why)));
    assert ids[i..][1..] == ids[i + 1..];
  }

  lemma ExpireStep(db: Db, now: nat, ids: seq<Id>, i: nat)
    requires HasReviews(db, ids) && i < |ids|
    ensures var d := Put(db, now, ReviewExpired, AReview(Expire(db.reviews[ids[i]])));
            HasReviews(d, ids) && ExpireAll(db, now, ids[i..]) == ExpireAll(d, now, ids[i + 1..])
  {
    hide Put;
    ReviewPutKeepsRows(db, now, ReviewExpired, Expire(db.reviews[ids[i]]), ids);
    assert ids[i..][1..] == ids[i + 1..];
  }

  lemma ReplaceStep(db: Db, now: nat, ids: seq<Id>, i: nat)
    requires HasRuns(db, ids) && i < |ids|
    ensures var d := Put(db, now, RunPaused, ARun(Halt(db.runs[ids[i]], Paused, "POLICY_REPLACED")));
            var d2 := ExpireReviews(StaleChecks(d, now, ids[i]), now, ids[i]);
            HasRuns(d2, ids) && ReplaceAll(db, now, ids[i..]) == ReplaceAll(d2, now, ids[i + 1..])
  {
    hide Put, FinishAll, ExpireAll;
    RunPutKeepsRows(db, now, RunPaused, Halt(db.runs[ids[i]], Paused, "POLICY_REPLACED"), ids);
    assert ids[i..][1..] == ids[i + 1..];
  }

  lemma SilentStep(db: Db, now: nat, ids: seq<Id>, i: nat)
    requires HasRuns(db, ids) && i < |ids|
    ensures db.runs[ids[i]].state != Open ==> PauseSilent(db, now, ids[i..]) == PauseSilent(db, now, ids[i + 1..])
    ensures var halted := Halt(db.runs[ids[i]], Paused, "SOURCE_SILENCE");
            var d := StaleChecks(Put(db, now, RunPaused, ARun(halted)), now, ids[i]);
            HasRuns(d, ids)
            && (db.runs[ids[i]].state == Open ==> PauseSilent(db, now, ids[i..]) == PauseSilent(d, now, ids[i + 1..]))
  {
    hide Put, FinishAll;
    RunPutKeepsRows(db, now, RunPaused, Halt(db.runs[ids[i]], Paused, "SOURCE_SILENCE"), ids);
    assert ids[i..][1..] == ids[i + 1..];
  }

  lemma PauseStep(db: Db, now: nat, ids: seq<Id>, i: nat)
    requires HasRuns(db, ids) && i < |ids|
    ensures var d := Put(db, now, RunPaused, ARun(Halt(db.runs[ids[i]], Paused, "RESTART")));
            HasRuns(d, ids) && PauseAll(db, now, ids[i..]) == PauseAll(d, now, ids[i + 1..])
  {
    hide Put;
    RunPutKeepsRows(db, now, RunPaused, Halt(db.runs[ids[i]], Paused, "RESTART"), ids);
    assert ids[i..][1..] == ids[i + 1..];
  }

  lemma ReleaseStep(db: Db, now: nat, ids: seq<Id>, i: nat)
    requires HasReviews(db, ids) && i < |ids|
    ensures var v := db.reviews[ids[i]];
            var d := if LeaseOver(v, now) && now < v.dueMs then Put(db, now, ReviewReleased, AReview(Reopen(v)))
                else db;
            HasReviews(d, ids) && ReleaseAll(db, now, ids[i..]) == ReleaseAll(d, now, ids[i + 1..])
  {
    hide Put, LeaseOver;
    ReviewPutKeepsRows(db, now, ReviewReleased, Reopen(db.reviews[ids[i]]), ids);
    assert ids[i..][1..] == ids[i + 1..];
  }

  lemma WakeStep(db: Db, now: nat, ids: seq<Id>, i: nat)
    requires HasReviews(db, ids) && i < |ids|
    ensures var v := db.reviews[ids[i]];
            var d := if WakeOver(v, now) && now < v.dueMs then Put(db, now, ReviewWoken, AReview(Woken(v))) else db;
            HasReviews(d, ids) && WakeAll(db, now, ids[i..]) == WakeAll(d, now, ids[i + 1..])
  {
    hide Put, WakeOver;
    ReviewPutKeepsRows(db, now, ReviewWoken, Woken(db.reviews[ids[i]]), ids);
    assert ids[i..][1..] == ids[i + 1..];
  }

  /** The OPEN reviews up to and including one more. */
  lemma OpenStep(db: Db, ids: seq<Id>, i: nat)
    requires HasReviews(db, ids) && i < |ids|
    ensures OpenReviews(db, ids[..i + 1])
            == OpenReviews(db, ids[..i]) + if db.reviews[ids[i]].state == ROpen then [db.reviews[ids[i]]] else []
  {
    assert ids[..i + 1][..i] == ids[..i];
  }

  lemma VectorGrows(slots: map<Id, MonitorSlot>, ids: seq<Id>, i: nat, now: nat)
    requires i < |ids| && forall k | 0 <= k < |ids| :: ids[k] in slots
    ensures Vector(slots, ids[..i + 1], now) == Vector(slots, ids[..i], now) + [Counted(slots[ids[i]], now)]
  {
    assert ids[..i + 1][..i] == ids[..i];
  }

  lemma NoVector(slots: map<Id, MonitorSlot>, now: nat)
    ensures Vector(slots, [], now) == []
  {}

  lemma NoneOpen(db: Db, ids: seq<Id>)
    ensures OpenReviews(db, ids[..0]) == []
  {}

  lemma NoneLeft(db: Db, now: nat, ids: seq<Id>)
    ensures ExpireAll(db, now, ids[|ids|..]) == db && ReplaceAll(db, now, ids[|ids|..]) == db
    ensures PauseSilent(db, now, ids[|ids|..]) == db && PauseAll(db, now, ids[|ids|..]) == db
    ensures ReleaseAll(db, now, ids[|ids|..]) == db && WakeAll(db, now, ids[|ids|..]) == db
  {}

  lemma NoneToFinish(db: Db, now: nat, ids: seq<Id>, state: CheckState, why: string)
    ensures FinishAll(db, now, ids[|ids|..], state, why) == db
  {}
}
