/** Timers, monitor replies and restart recovery keep the invariant. */
module TimersKeep {
  import opened Basics
  import opened Ids
  import opened Records
  import opened Store
  import opened Detect
  import opened Protocol
  import D = DriftReducer
  import opened Timers
  import opened Safety
  import opened Invariants
  import opened Steps
  import opened Handlers
  import opened Clearing

  ghost predicate Safe(db: Db, next: Db) { Inv(next) && Extends(db, next) }

  lemma SafeThen(a: Db, b: Db, c: Db)
    requires Inv(a) && Safe(a, b) && Safe(b, c)
    ensures Safe(a, c)
  {
    hide Kept, Extends, PoliciesOk, RunsOk, StreamsOk, ChecksOk, ReviewsOk, ClearsOk;
    ExtendsTransitive(a, b, c);
  }

  lemma SafeSelf(db: Db)
    requires Inv(db)
    ensures Safe(db, db)
  {
    hide Inv;
  }

  // ---- run silence ----

  lemma {:induction false} PauseSilentKeeps(db: Db, now: nat, ids: seq<Id>)
    requires Inv(db) && HasRuns(db, ids)
    ensures Safe(db, PauseSilent(db, now, ids))
    decreases |ids|
  {
    hide Kept, Extends, Quiet, PoliciesOk, RunsOk, StreamsOk, ChecksOk, ReviewsOk, ClearsOk;
    Keyed(db);
    SafeSelf(db);
    if ids != [] {
      var r := db.runs[ids[0]];
      if r.state != Open {
        PauseSilentKeeps(db, now, ids[1..]);
      } else {
        var d := StaleChecks(Put(db, now, RunPaused, ARun(Halt(r, Paused, "SOURCE_SILENCE"))), now, ids[0]);
        PauseKeeps(db, now, r, "SOURCE_SILENCE");
        PauseSilentKeeps(d, now, ids[1..]);
        SafeThen(db, d, PauseSilent(d, now, ids[1..]));
      }
    }
  }

  // ---- reviews ----

  lemma {:induction false} ReleaseAllKeeps(db: Db, now: nat, ids: seq<Id>)
    requires Inv(db) && HasReviews(db, ids)
    ensures Safe(db, ReleaseAll(db, now, ids))
    decreases |ids|
  {
    hide Kept, Extends, Quiet, PoliciesOk, RunsOk, StreamsOk, ChecksOk, ReviewsOk, ClearsOk;
    Keyed(db);
    SafeSelf(db);
    if ids != [] {
      var v := db.reviews[ids[0]];
      if !LeaseOver(v, now) || now >= v.dueMs {
        ReleaseAllKeeps(db, now, ids[1..]);
      } else {
        var d := Put(db, now, ReviewReleased, AReview(Reopen(v)));
        PutReview(db, NONE, now, ReviewReleased, Reopen(v));
        ReleaseAllKeeps(d, now, ids[1..]);
        SafeThen(db, d, ReleaseAll(d, now, ids[1..]));
      }
    }
  }

  lemma {:induction false} WakeAllKeeps(db: Db, now: nat, ids: seq<Id>)
    requires Inv(db) && HasReviews(db, ids)
    ensures Safe(db, WakeAll(db, now, ids))
    decreases |ids|
  {
    hide Kept, Extends, Quiet, PoliciesOk, RunsOk, StreamsOk, ChecksOk, ReviewsOk, ClearsOk;
    Keyed(db);
    SafeSelf(db);
    if ids != [] {
      var v := db.reviews[ids[0]];
      if !WakeOver(v, now) || now >= v.dueMs {
        WakeAllKeeps(db, now, ids[1..]);
      } else {
        var d := Put(db, now, ReviewWoken, AReview(Woken(v)));
        PutReview(db, NONE, now, ReviewWoken, Woken(v));
        WakeAllKeeps(d, now, ids[1..]);
        SafeThen(db, d, WakeAll(d, now, ids[1..]));
      }
    }
  }

  lemma ReviewTimersKeep(db: Db, now: nat)
    requires Inv(db)
    ensures Safe(db, TickDue(db, now)) && Safe(db, TickLease(db, now)) && Safe(db, TickWake(db, now))
    ensures Safe(db, TickSilence(db, now))
  {
    hide Kept, Extends, Quiet, PoliciesOk, RunsOk, StreamsOk, ChecksOk, ReviewsOk, ClearsOk;
    ExpireAllKeeps(db, NONE, now, DueReviews(db, now));
    ReleaseAllKeeps(db, now, LeaseIds(db, now));
    WakeAllKeeps(db, now, WakeIds(db, now));
    PauseSilentKeeps(db, now, SilentRuns(db, now));
  }

  // ---- checks ----

  /** The recomputed result is the one of the only monitor with that id. */
  lemma RecomputeIsExpected(p: Policy, i: nat)
    requires PolicyConstraints(p) && i < |p.monitors|
    ensures FindMonitor(p.monitors, p.monitors[i].id) == Some(p.monitors[i])
  {}

  /** What a worker's answer may put into a slot of an EVALUATING check. */
  ghost predicate SlotMove(db: Db, c: Check, monitor: Id, s: MonitorSlot) {
    && c.id in db.checks && db.checks[c.id] == c && c.state == Evaluating
    && (s.state == Done ==> Recompute(db, c, monitor).None? || Recompute(db, c, monitor) == s.result)
  }

  lemma SlotsOkSet(db: Db, c: Check, monitor: Id, s: MonitorSlot)
    requires PoliciesOk(db.policies) && SlotsOk(db.policies, db.observations, db.slots, c)
             && SlotMove(db, c, monitor, s)
    ensures SlotsOk(db.policies, db.observations, SetSlot(db, c.id, monitor, s).slots, c)
  {
    var d := SetSlot(db, c.id, monitor, s);
    var p, o := PolicyIn(db.policies, c.policy).value, RefIn(db.observations, c.observation).value;
    PolicyMeets(db.policies, c.policy, p);
    hide PolicyConstraints, Expected;
    forall i | 0 <= i < |p.monitors| ensures SlotOk(p.monitors[i], p, o, c, SlotsIn(d.slots, c.id)) {
      assert SlotOk(p.monitors[i], p, o, c, SlotsIn(db.slots, c.id));
      RecomputeIsExpected(p, i);
    }
  }

  lemma ChecksOkSlot(db: Db, c: Check, monitor: Id, s: MonitorSlot)
    requires PoliciesOk(db.policies) && SlotMove(db, c, monitor, s)
    requires ChecksOk(db.policies, db.observations, db.slots, db.runs, db.checks, {})
    requires forall id | id in db.checks :: db.checks[id].id == id
    ensures ChecksOk(db.policies, db.observations, SetSlot(db, c.id, monitor, s).slots, db.runs, db.checks, {})
  {
    hide PoliciesOk, EvaluatingOk;
    var slots := SetSlot(db, c.id, monitor, s).slots;
    SlotsOkSet(db, c, monitor, s);
    forall id | id in db.checks ensures SlotsOk(db.policies, db.observations, slots, db.checks[id]) {
      assert SlotsOk(db.policies, db.observations, db.slots, db.checks[id]);
      if id != c.id { assert SlotsIn(slots, id) == SlotsIn(db.slots, id); }
    }
    hide SlotsOk;
  }

  lemma SetSlotKeeps(db: Db, c: Check, monitor: Id, s: MonitorSlot)
    requires Inv(db) && SlotMove(db, c, monitor, s)
    ensures Safe(db, SetSlot(db, c.id, monitor, s))
  {
    hide Kept, Quiet, PoliciesOk, RunsOk, StreamsOk, ChecksOk, ReviewsOk, ClearsOk;
    var d := SetSlot(db, c.id, monitor, s);
    Keyed(db);
    KeptSame(db, d);
    ChecksOkSlot(db, c, monitor, s);
    assert Extends(db, d);
    ClearsCarry(db, d);
  }

  /** The slot a reply would store now. */
  function SlotFor(db: Db, now: nat, k: Completion): MonitorSlot
    requires k.slotMonitor in SlotsOf(db, k.check)
  {
    var deadline := SlotsOf(db, k.check)[k.slotMonitor].deadlineMs;
    if now >= deadline then MonitorSlot(deadline, Timeout, None) else MonitorSlot(deadline, Done, k.result)
  }

  /** A reply stores what recomputation gives, or a timeout; or recomputation contradicts it, it faults the host and
      stores nothing; or it changes nothing. */
  lemma StoreMeans(db: Db, host: HostState, epoch: nat, now: nat, k: Completion)
    requires forall id | id in db.checks :: db.checks[id].id == id
    ensures var (d, h, again) := StoreReply(db, host, epoch, now, k);
            if again then
              && h == host && k.slotMonitor in SlotsOf(db, k.check) && k.check in db.checks
              && db.checks[k.check].id == k.check
              && SlotMove(db, db.checks[k.check], k.monitor, SlotFor(db, now, k))
              && d == SetSlot(db, k.check, k.monitor, SlotFor(db, now, k))
            else
              || (d == db && h == host)
              || (&& h == Faulted && d == Put(db, now, HostFaulted, AHost(Host(Faulted, epoch)))
                  && k.check in db.checks && k.result.Some? && Recompute(db, db.checks[k.check], k.monitor).Some?
                  && Recompute(db, db.checks[k.check], k.monitor) != k.result)
  {
    hide Recompute, SetSlot, Put;
  }

  lemma StoreKeeps(db: Db, host: HostState, epoch: nat, now: nat, k: Completion)
    requires Inv(db)
    ensures Safe(db, StoreReply(db, host, epoch, now, k).0)
  {
    hide Kept, Extends, Quiet, PoliciesOk, RunsOk, StreamsOk, ChecksOk, ReviewsOk, ClearsOk, StoreReply, SetSlot, Put,
         SlotMove, SlotFor;
    SafeSelf(db);
    Keyed(db);
    StoreMeans(db, host, epoch, now, k);
    PutOther(db, NONE, now, HostFaulted, AHost(Host(Faulted, epoch)));
    if StoreReply(db, host, epoch, now, k).2 {
      SetSlotKeeps(db, db.checks[k.check], k.monitor, SlotFor(db, now, k));
    }
  }

  lemma ReplyKeeps(db: Db, host: HostState, epoch: nat, now: nat, k: Completion)
    requires Inv(db)
    ensures Safe(db, ApplyReply(db, host, epoch, now, k).0)
  {
    hide Inv, Extends, StoreReply, MaybeFinalize, SlotMove, SetSlot;
    StoreKeeps(db, host, epoch, now, k);
    var (d, h, again) := StoreReply(db, host, epoch, now, k);
    MaybeFinalizeKeeps(d, now, k.check);
    SafeThen(db, d, MaybeFinalize(d, now, k.check));
  }

  // ---- windows and outbox ----

  lemma SideExtends(db: Db, next: Db)
    requires next == db.(windows := next.windows, outbox := next.outbox, hostEpoch := next.hostEpoch)
    requires db.hostEpoch <= next.hostEpoch
    ensures Extends(db, next)
  {}

  lemma TakingKeeps(db: Db, taken: set<(Id, Id)>)
    requires Inv(db)
    ensures Safe(db, TickOutbox(db, taken))
  {
    hide Kept, Extends, Quiet, PoliciesOk, RunsOk, StreamsOk, ChecksOk, ReviewsOk, ClearsOk;
    SideExtends(db, TickOutbox(db, taken));
    SideTables(db, TickOutbox(db, taken), NONE);
  }

  lemma MissedIsUnavailable(db: Db, r: Run, p: Policy)
    ensures AllUnavailable(Missed(db, r, p))
  {}

  lemma AttemptKeeps(db: Db, now: nat, id: Id, start: nat)
    requires Inv(db)
    ensures Safe(db, Attempted(db, now, id, start))
  {
    hide Kept, Extends, Quiet, PoliciesOk, RunsOk, StreamsOk, ChecksOk, ReviewsOk, ClearsOk, Put, Missed, D.Next;
    SafeSelf(db);
    Keyed(db);
    var d1 := Marked(db, id, start);
    SideExtends(db, d1);
    SideTables(db, d1, NONE);
    if !(id !in db.runs || db.runs[id].state !in {Open, Paused} || RunPolicy(db, id).None?) {
      var r, p := db.runs[id], RunPolicy(db, id).value;
      var s := AWindow(id, start, Missed(db, r, p));
      MissedIsUnavailable(db, r, p);
      var d2 := Put(d1, now, TrailingEvaluated, s);
      PutOther(d1, NONE, now, TrailingEvaluated, s);
      Then(db, d1, d2, NONE, NONE);
      PutFrame(d1, now, TrailingEvaluated, s);
      var drift := D.Next(r.drift, D.Slot(start, D.NoWindow), p);
      var r2 := r.(drift := drift, revision := r.revision + 1);
      DriftKeeps(d2, now, r2);
      Then(db, d2, Put(d2, now, DriftUpdated, ARun(r2)), NONE, NONE);
    }
  }

  lemma {:induction false} AttemptAllKeeps(db: Db, now: nat, id: Id, starts: seq<nat>)
    requires Inv(db)
    ensures Safe(db, AttemptAll(db, now, id, starts))
    decreases |starts|
  {
    hide Inv, Extends, Attempted;
    if starts == [] {
      SafeSelf(db);
    } else {
      var d := Attempted(db, now, id, starts[0]);
      AttemptKeeps(db, now, id, starts[0]);
      AttemptAllKeeps(d, now, id, starts[1..]);
      SafeThen(db, d, AttemptAll(d, now, id, starts[1..]));
    }
  }

  lemma PassKeeps(db: Db, now: nat, id: Id)
    requires Inv(db)
    ensures Safe(db, PassWindows(db, now, id))
  {
    hide Inv, Extends, AttemptAll;
    AttemptAllKeeps(db, now, id, DueWindows(db.windows, id, now, FirstStart(db.audit, id), 0));
  }

  // ---- restart ----

  lemma BegunKeeps(db: Db, now: nat)
    requires Inv(db)
    ensures Safe(db, Begun(db, now))
  {
    hide Kept, Extends, Quiet, PoliciesOk, RunsOk, StreamsOk, ChecksOk, ReviewsOk, ClearsOk;
    var d := db.(hostEpoch := db.hostEpoch + 1);
    SideExtends(db, d);
    SideTables(db, d, NONE);
    PutOther(d, NONE, now, HostStarted, AHost(Host(Starting, d.hostEpoch)));
    Then(db, d, Begun(db, now), NONE, NONE);
  }

  lemma ReadiedKeeps(db: Db, now: nat)
    requires Inv(db)
    ensures Safe(db, Readied(db, now))
  {
    hide Kept, Extends, Quiet, PoliciesOk, RunsOk, StreamsOk, ChecksOk, ReviewsOk, ClearsOk;
    PutOther(db, NONE, now, HostReady, AHost(Host(Ready, db.hostEpoch)));
  }

  lemma BehindKeeps(db: Db, now: nat)
    requires Inv(db)
    ensures Safe(db, Behind(db, now))
  {
    hide Kept, Extends, Quiet, PoliciesOk, RunsOk, StreamsOk, ChecksOk, ReviewsOk, ClearsOk;
    PutOther(db, NONE, now, HostFaulted, AHost(Host(Faulted, db.hostEpoch)));
  }

  lemma {:induction false} PauseAllKeeps(db: Db, x: Exempt, now: nat, ids: seq<Id>)
    requires InvBut(db, x) && x.unbound == {} && x.over == {} && HasRuns(db, ids)
    requires forall i | 0 <= i < |ids| :: db.runs[ids[i]].state == Open
    requires forall i, j | 0 <= i < j < |ids| :: ids[i] != ids[j]
    ensures Good(db, PauseAll(db, now, ids), Exempt({}, {}, x.late + set id | id in ids))
    decreases |ids|
  {
    hide Kept, Extends, Quiet, PoliciesOk, RunsOk, StreamsOk, ChecksOk, ReviewsOk, ClearsOk, Put;
    Keyed(db);
    if ids == [] {
      assert Exempt({}, {}, x.late + set id | id in ids) == x;
      Unchanged(db, x);
    } else {
      var r := Halt(db.runs[ids[0]], Paused, "RESTART");
      var d, y := Put(db, now, RunPaused, ARun(r)), Exempt({}, {}, x.late + {r.id});
      assert Owing(x, r) == y by { assert {} - {r.id} == {}; }
      PutRun(db, x, now, RunPaused, r);
      PutFrame(db, now, RunPaused, ARun(r));
      PauseAllKeeps(d, y, now, ids[1..]);
      LateSum(x, ids);
      Then(db, d, PauseAll(d, now, ids[1..]), y, Exempt({}, {}, x.late + set id | id in ids));
    }
  }

  lemma LateSum(x: Exempt, ids: seq<Id>)
    requires ids != []
    ensures x.late + {ids[0]} + (set id | id in ids[1..]) == x.late + set id | id in ids
  {
    assert ids == [ids[0]] + ids[1..];
  }

  /** The recovery transaction pauses, expires and finishes; only together do its parts keep the invariant. */
  lemma RecoveredKeeps(db: Db, now: nat)
    requires Inv(db)
    ensures Safe(db, Recovered(db, now))
  {
    hide Kept, Extends, Quiet, PoliciesOk, RunsOk, StreamsOk, ChecksOk, ReviewsOk, ClearsOk;
    var ids := OpenRunIds(db);
    assert forall i | 0 <= i < |ids| :: ids[i] in ids;
    PauseAllKeeps(db, NONE, now, ids);
    var x := Exempt({}, {}, {} + set id | id in ids);
    var d1 := PauseAll(db, now, ids);
    var d2 := ExpireAll(d1, now, ActiveReviewIds(d1, None));
    ExpireRun(d1, x, now, None);
    Then(db, d1, d2, x, x);
    FinishRun(d2, x, now, None, CExpired, "RESTART");
    Then(db, d2, Recovered(db, now), x, NONE);
  }
}
