/** The daemon itself (crates/watch/src/daemon.rs, crates/watch/src/methods.rs): fields updated in place, work done
    inside an open transaction and taken back when it does not commit. Every method here carries out one of the steps
    that `Protocol`, `Timers` and `System` define on values, so what is proved about those holds of it. */
module Daemon {
  import opened Basics
  import opened Ids
  import opened Records
  import opened Store
  import opened Detect
  import opened Protocol
  import opened Timers
  import opened System
  import opened TableStore
  import opened LoopSteps
  import Queue
  import D = DriftReducer
  import TB = TokenBucket

  /** How a handler ended: with or without an open transaction, its reply, and the host state to commit. */
  datatype Ended = Ended(wrote: bool, reply: Reply, host: HostState)

  predicate Carries(plan: Plan, before: Db, after: Db, e: Ended) {
    match plan
    case Refuse(c) => !e.wrote && e.reply == Refused(c) && after == before
    case Answer(r) => !e.wrote && e.reply == r && after == before
    case Commit(out, work, hs) => e == Ended(true, out, hs) && after == work
  }

  class Daemon {
    const cfg: Config
    const store: Database
    var host: Host
    var now: Counter
    var rate: map<Id, TB.Bucket>
    var up: bool

    function View(): Sys
      reads this, store
    {
      Sys(store.Snapshot(), host, now, rate, up)
    }

    constructor (cfg: Config)
      ensures View() == COLD && fresh(store) && this.cfg == cfg
    {
      this.cfg := cfg;
      store := new Database();
      host, now, rate, up := Host(Starting, 0), 0, map[], false;
    }

    // ---- entity loops inside a transaction ----

    method FinishEach(ids: seq<Id>, state: CheckState, reason: string)
      requires HasChecks(store.Snapshot(), ids)
      modifies store
      ensures store.Snapshot() == FinishAll(old(store.Snapshot()), now, ids, state, reason)
    {
      hide FinishAll, Put;
      var i := 0;
      while i < |ids|
        invariant i <= |ids| && HasChecks(store.Snapshot(), ids)
        invariant FinishAll(store.Snapshot(), now, ids[i..], state, reason)
                  == FinishAll(old(store.Snapshot()), now, ids, state, reason)
      {
        FinishStep(store.Snapshot(), now, ids, i, state, reason);
        store.PutCheck(now, CheckFinalized, Finish(store.checks[ids[i]], state, reason));
        i := i + 1;
      }
      NoneToFinish(store.Snapshot(), now, ids, state, reason);
    }

    method ExpireEach(ids: seq<Id>)
      requires HasReviews(store.Snapshot(), ids)
      modifies store
      ensures store.Snapshot() == ExpireAll(old(store.Snapshot()), now, ids)
    {
      hide ExpireAll, Put;
      var i := 0;
      while i < |ids|
        invariant i <= |ids| && HasReviews(store.Snapshot(), ids)
        invariant ExpireAll(store.Snapshot(), now, ids[i..]) == ExpireAll(old(store.Snapshot()), now, ids)
      {
        ExpireStep(store.Snapshot(), now, ids, i);
        store.PutReview(now, ReviewExpired, Expire(store.reviews[ids[i]]));
        i := i + 1;
      }
      NoneLeft(store.Snapshot(), now, ids);
    }

    method ExpireRunChecks(run: Id)
      modifies store
      ensures store.Snapshot() == StaleChecks(old(store.Snapshot()), now, run)
    {
      FinishEach(EvaluatingIds(store.Snapshot(), Some(run)), Stale, "STALE");
    }

    method ExpireRunReviews(run: Id)
      modifies store
      ensures store.Snapshot() == ExpireReviews(old(store.Snapshot()), now, run)
    {
      ExpireEach(ActiveReviewIds(store.Snapshot(), Some(run)));
    }

    method ReplaceEach(ids: seq<Id>)
      requires HasRuns(store.Snapshot(), ids)
      modifies store
      ensures store.Snapshot() == ReplaceAll(old(store.Snapshot()), now, ids)
    {
      hide ReplaceAll, StaleChecks, ExpireReviews, Put;
      var i := 0;
      while i < |ids|
        invariant i <= |ids| && HasRuns(store.Snapshot(), ids)
        invariant ReplaceAll(store.Snapshot(), now, ids[i..]) == ReplaceAll(old(store.Snapshot()), now, ids)
      {
        ReplaceStep(store.Snapshot(), now, ids, i);
        store.PutRun(now, RunPaused, Halt(store.runs[ids[i]], Paused, "POLICY_REPLACED"));
        ExpireRunChecks(ids[i]);
        ExpireRunReviews(ids[i]);
        i := i + 1;
      }
      NoneLeft(store.Snapshot(), now, ids);
    }

    // ---- request handlers ----

    method SystemDrain() returns (e: Ended)
      modifies store
      ensures Carries(Drain(old(store.Snapshot()), host, now), old(store.Snapshot()), store.Snapshot(), e)
    {
      hide FinishAll, Put;
      if host.state == Draining { return Ended(false, Changed("", 0, "DRAINING"), host.state); }
      store.Note(now, HostDraining, AHost(host.(state := Draining)));
      FinishEach(EvaluatingIds(store.Snapshot(), None), CExpired, "DRAIN");
      return Ended(true, Changed("", 0, "DRAINING"), Draining);
    }

    method PolicyActivate(sp: Signed<Policy>, expected: Counter) returns (e: Ended)
      modifies store
      ensures Carries(Activate(cfg, old(store.Snapshot()), host.state, now, sp, expected), old(store.Snapshot()),
                      store.Snapshot(), e)
    {
      hide ReplaceAll, Put, PolicyConstraints, Newest;
      var p, active := sp.body, ActivePolicy(store.Snapshot());
      if !PolicyConstraints(p) || !sp.valid || p.tenant != cfg.tenant {
        return Ended(false, Refused(PolicyInvalid), host.state);
      }
      var i := 0;
      while i < |p.monitors|
        invariant i <= |p.monitors| && store.Snapshot() == old(store.Snapshot())
        invariant forall k | 0 <= k < i :: (p.monitors[k].detector, p.monitors[k].artifact) in cfg.installed
      {
        if (p.monitors[i].detector, p.monitors[i].artifact) !in cfg.installed {
          return Ended(false, Refused(PolicyInvalid), host.state);
        }
        i := i + 1;
      }
      if active.None? {
        if expected != 0 || p.generation != 1 || p.predecessor.Some? {
          return Ended(false, Refused(PolicyStale), host.state);
        }
      } else if expected != active.value.generation || p.generation != active.value.generation + 1
                || p.predecessor != Some(OfPolicy(active.value)) {
        return Ended(false, Refused(PolicyStale), host.state);
      }
      store.policies := store.policies + [p];
      store.Note(now, PolicyActivated, APolicy(p));
      ReplaceEach(OpenRunIds(store.Snapshot()));
      return Ended(true, Changed(p.id, p.generation, "ACTIVE"), host.state);
    }

    method RunsOpen(p: Principal, q: Request) returns (e: Ended)
      requires q.OpenRun?
      modifies store
      ensures Carries(Start(cfg, old(store.Snapshot()), host.state, now, p, q), old(store.Snapshot()), store.Snapshot(),
                      e)
    {
      hide Put, Newest;
      var active := ActivePolicy(store.Snapshot());
      var live := |set id | id in store.runs && store.runs[id].state in {Open, Paused}|;
      if q.id in store.runs { return Ended(false, Refused(StateConflict), host.state); }
      if q.source !in cfg.sources { return Ended(false, Refused(NotFound), host.state); }
      var source := cfg.sources[q.source];
      if source.runtime != p.id { return Ended(false, Refused(Forbidden), host.state); }
      if source.epoch != q.sourceEpoch || source.profile != q.profile {
        return Ended(false, Refused(StateConflict), host.state);
      }
      if q.profile !in cfg.certified || (q.mode == Guarded && q.profile == "runtime-guard/1" && cfg.lab) {
        return Ended(false, Refused(AdapterUnavailable), host.state);
      }
      if active.None? || OfPolicy(active.value) != q.policyDigest {
        return Ended(false, Refused(PolicyStale), host.state);
      }
      if live >= RUN_TOTAL { return Ended(false, Refused(Capacity), host.state); }
      store.PutRun(now, RunOpened,
                   Run(q.id, 1, q.source, q.sourceEpoch, p.id, q.guardEpoch, q.boot, q.mode, q.profile, Open,
                       q.policyDigest, EMPTY_HEAD, None, None, FRESH, None));
      return Ended(true, Changed(q.id, 1, "OPEN"), host.state);
    }

    method RunsControl(p: Principal, id: Id, expected: nat, action: RunAction, reason: string) returns (e: Ended)
      modifies store
      ensures Carries(Control(old(store.Snapshot()), host.state, now, p, id, expected, action, reason),
                      old(store.Snapshot()), store.Snapshot(), e)
    {
      hide FinishAll, ExpireAll, Put, ResumeFault;
      if id !in store.runs { return Ended(false, Refused(NotFound), host.state); }
      var r := store.runs[id];
      if !(Operator in p.roles || (action != Resume && Runtime in p.roles && r.runtime == p.id)) {
        return Ended(false, Refused(Forbidden), host.state);
      }
      if r.revision != expected { return Ended(false, Refused(RevisionConflict), host.state); }
      match action
      case Pause =>
        if r.state != Open { return Ended(false, Refused(StateConflict), host.state); }
        r := Halt(r, Paused, reason);
        store.PutRun(now, RunPaused, r);
        ExpireRunChecks(id);
        return Ended(true, Changed(id, r.revision, "PAUSED"), host.state);
      case Resume =>
        var fault := ResumeFault(store.Snapshot(), now, r);
        if fault.Some? { return Ended(false, Refused(fault.value), host.state); }
        r := r.(state := Open, pauseReason := None, revision := r.revision + 1);
        store.PutRun(now, RunResumed, r);
        return Ended(true, Changed(id, r.revision, "OPEN"), host.state);
      case Close =>
        if r.state == Closed { return Ended(false, Refused(StateConflict), host.state); }
        r := Halt(r, Closed, reason);
        store.PutRun(now, RunClosed, r);
        FinishEach(EvaluatingIds(store.Snapshot(), Some(id)), Cancelled, "CANCELLED");
        ExpireRunReviews(id);
        return Ended(true, Changed(id, r.revision, "CLOSED"), host.state);
    }

    method PauseSourceOf(r: Run, c: Code) returns (e: Ended)
      modifies store
      ensures Carries(PauseSource(old(store.Snapshot()), host.state, now, r, c), old(store.Snapshot()),
                      store.Snapshot(), e)
    {
      hide FinishAll, Put;
      store.PutRun(now, RunPaused, Halt(r, Paused, CodeName(c)));
      ExpireRunChecks(r.id);
      return Ended(true, Refused(c), host.state);
    }

    method QuarantineRun(r: Run, c: Code) returns (e: Ended)
      modifies store
      ensures Carries(Quarantine(old(store.Snapshot()), host.state, now, r, c), old(store.Snapshot()), store.Snapshot(),
                      e)
    {
      hide FinishAll, ExpireAll, Put;
      store.PutRun(now, RunQuarantined, Halt(r, Quarantined, CodeName(c)));
      ExpireRunChecks(r.id);
      ExpireRunReviews(r.id);
      return Ended(true, Refused(c), host.state);
    }

    method ObservationsAppend(p: Principal, so: Signed<Observation>) returns (e: Ended)
      modifies store
      ensures Carries(Observe(cfg, old(store.Snapshot()), host.state, now, p, so), old(store.Snapshot()),
                      store.Snapshot(), e)
    {
      hide RefIn, Admissible, PauseSource, Quarantine, Accept, Advanced;
      var o := so.body;
      if o.run !in store.runs { return Ended(false, Refused(NotFound), host.state); }
      var r := store.runs[o.run];
      if r.runtime != p.id { return Ended(false, Refused(Forbidden), host.state); }
      if r.state in {Closed, Quarantined} { return Ended(false, Refused(StateConflict), host.state); }
      if o.source != r.source || o.epoch != r.sourceEpoch || o.boot != r.boot {
        return Ended(false, Refused(SourceBinding), host.state);
      }
      if o.source !in cfg.sources { return Ended(false, Refused(NotFound), host.state); }
      if !so.valid { return Ended(false, Refused(SignatureInvalid), host.state); }
      if o.pos <= r.cursor.pos {
        var known := if o.pos == r.cursor.pos then OfObservation(o) == r.cursor.hash
                     else ByRef(store.Snapshot(), RefOf(o)).Some?;
        if known {
          return Ended(false, Appended(false, r.cursor, r.revision), host.state);
        }
        e := QuarantineRun(r, SourceFork);
        return;
      }
      if o.pos > r.cursor.pos + 1 { e := PauseSourceOf(r, SourceGap); return; }
      var admission := Admissible(store.Snapshot(), now, r, o);
      match admission
      case Isolate(c) => e := QuarantineRun(r, c);
      case Decline(c) => e := Ended(false, Refused(c), host.state);
      case Admit => e := AcceptObservation(r, o);
    }

    method AcceptObservation(r: Run, o: Observation) returns (e: Ended)
      modifies store
      ensures e == Ended(true, Appended(true, Advanced(r, now, o).cursor, Advanced(r, now, o).revision), host.state)
      ensures store.Snapshot() == Accept(old(store.Snapshot()), now, r, o)
    {
      hide RowOf, NextEvent;
      var w := o.snapshot.window;
      if w.Some? && (r.id, w.value.startMs as nat) !in store.windows {
        store.windows := store.windows[(r.id, w.value.startMs as nat) := Some(w.value.counts)];
      }
      store.observations := store.observations[r.id := ObservationsOf(store.Snapshot(), r.id) + [o]];
      var r2 := Advanced(r, now, o);
      store.PutRun(now, ObservationAccepted, r2);
      return Ended(true, Appended(true, r2.cursor, r2.revision), host.state);
    }

    method ChecksCreate(p: Principal, q: Request) returns (e: Ended)
      requires q.CreateCheck?
      modifies store
      ensures Carries(Create(old(store.Snapshot()), host.state, now, p, q), old(store.Snapshot()), store.Snapshot(), e)
    {
      hide Put, CreateFault, Registered, RequiredMonitors;
      var fault := CreateFault(store.Snapshot(), now, p, q);
      if fault.Some? { return Ended(false, Refused(fault.value), host.state); }
      assert ActivePolicy(store.Snapshot()).Some? by { FaultlessHasPolicy(store.Snapshot(), now, p, q); }
      var pol := ActivePolicy(store.Snapshot()).value;
      var c := Check(q.id, 1, q.run, q.intent, q.ref, OfPolicy(pol), Evaluating, now, now + pol.evaluationMs, [],
                     q.review, None, "PENDING");
      var ms, latched := RequiredMonitors(pol.monitors), Latched(store.Snapshot(), q.run, q.intent.action);
      store.PutCheck(now, CheckStarted, c);
      Register(q, ms, latched);
      if latched {
        store.PutCheck(now, CheckFinalized, Finish(c, Deny, "REVIEW_REJECTED"));
        return Ended(true, Changed(q.id, 2, "DENY"), host.state);
      }
      return Ended(true, Changed(q.id, 1, "EVALUATING"), host.state);
    }

    method Register(q: Request, ms: seq<Monitor>, latched: bool)
      requires q.CreateCheck?
      modifies store`slots, store`outbox, store`actions
      ensures store.Snapshot() == Registered(old(store.Snapshot()), q, ms, now, latched)
    {
      hide PendingSlots, Jobs;
      store.slots := store.slots[q.id := PendingSlots(ms, now)];
      store.outbox := store.outbox + Jobs(q.id, ms);
      store.actions := store.actions[(q.run, q.intent.action) := Binding(OfIntent(q.intent), latched)];
    }

    lemma FaultlessHasPolicy(db: Db, now: Counter, p: Principal, q: Request)
      requires q.CreateCheck? && CreateFault(db, now, p, q).None?
      ensures ActivePolicy(db).Some?
    {}

    method ChecksCancel(p: Principal, id: Id, expected: nat) returns (e: Ended)
      modifies store
      ensures Carries(Cancel(old(store.Snapshot()), host.state, now, p, id, expected), old(store.Snapshot()),
                      store.Snapshot(), e)
    {
      hide RowOf, NextEvent;
      if id !in store.checks { return Ended(false, Refused(NotFound), host.state); }
      var c := store.checks[id];
      if c.run !in store.runs { return Ended(false, Refused(AuditUnavailable), host.state); }
      if !(Operator in p.roles || store.runs[c.run].runtime == p.id) {
        return Ended(false, Refused(Forbidden), host.state);
      }
      if c.revision != expected { return Ended(false, Refused(RevisionConflict), host.state); }
      if c.state != Evaluating { return Ended(false, Refused(StateConflict), host.state); }
      c := Finish(c, Cancelled, "CANCELLED");
      store.PutCheck(now, CheckFinalized, c);
      return Ended(true, Changed(id, c.revision, "CANCELLED"), host.state);
    }

    /** Boundary first: what has run out is settled, and the caller learns that its lease is gone. */
    method SettleThenFault(kind: Kind, v: Review) returns (e: Ended)
      modifies store
      ensures store.Snapshot() == Put(old(store.Snapshot()), now, kind, AReview(v))
      ensures e == Ended(true, Refused(LeaseExpired), host.state)
    {
      store.PutReview(now, kind, v);
      return Ended(true, Refused(LeaseExpired), host.state);
    }

    method NextOpenReview() returns (r: Option<Review>)
      ensures r == NextOpen(store.Snapshot())
    {
      hide OpenReviews, Queue.NextOpen;
      var ids, items := Ascending(store.reviews.Keys), [];
      assert forall i | 0 <= i < |ids| :: ids[i] in ids;
      NoneOpen(store.Snapshot(), ids);
      var i := 0;
      while i < |ids|
        invariant i <= |ids| && HasReviews(store.Snapshot(), ids)
        invariant items == OpenReviews(store.Snapshot(), ids[..i])
      {
        OpenStep(store.Snapshot(), ids, i);
        if store.reviews[ids[i]].state == ROpen { items := items + [store.reviews[ids[i]]]; }
        i := i + 1;
      }
      assert ids[..i] == ids;
      r := Queue.Pick(items, store.cursors);
    }

    method ReviewsClaim(p: Principal, named: Option<Id>, expected: Option<nat>) returns (e: Ended)
      modifies store
      ensures Carries(Claim(old(store.Snapshot()), host.state, now, p, named, expected), old(store.Snapshot()),
                      store.Snapshot(), e)
    {
      hide Put, PolicyIn, NextOpen, ClaimedBy;
      var found;
      if named.None? { found := NextOpenReview(); }
      else { found := if named.value in store.reviews then Some(store.reviews[named.value]) else None; }
      if found.None? { return Ended(false, Refused(NotFound), host.state); }
      var v := found.value;
      var pol := RunPolicy(store.Snapshot(), v.run);
      if expected.Some? && v.revision != expected.value { return Ended(false, Refused(RevisionConflict), host.state); }
      if pol.None? { return Ended(false, Refused(ArtifactUnavailable), host.state); }
      if now >= v.dueMs { e := SettleThenFault(ReviewExpired, Expire(v)); return; }
      if !(v.state == ROpen || (v.state == Claimed && v.owner == Some(p.id))) {
        return Ended(false, Refused(StateConflict), host.state);
      }
      var v2 := ClaimedBy(v, p, now, pol.value.claimLeaseMs);
      store.PutReview(now, ReviewClaimed, v2);
      store.cursors := store.cursors[Queue.Rank(v.level) := v.run];
      return Ended(true, Changed(v.id, v2.revision, "CLAIMED"), host.state);
    }

    method ReviewsResolve(p: Principal, q: Request) returns (e: Ended)
      requires q.ResolveReview?
      modifies store
      ensures Carries(Resolve(old(store.Snapshot()), host.state, now, p, q), old(store.Snapshot()), store.Snapshot(), e)
    {
      hide Put, PolicyIn, Resolved, Protocol.Legal, ReviewStateName, ResolveKind, LatchRejected;
      if q.id !in store.reviews { return Ended(false, Refused(NotFound), host.state); }
      var v := store.reviews[q.id];
      if v.revision != q.expected { return Ended(false, Refused(RevisionConflict), host.state); }
      if now >= v.dueMs { e := SettleThenFault(ReviewExpired, Expire(v)); return; }
      if v.state == Claimed && v.leaseUntilMs.Some? && now >= v.leaseUntilMs.value {
        e := SettleThenFault(ReviewReleased, Reopen(v));
        return;
      }
      if v.state == Claimed && v.owner != Some(p.id) { return Ended(false, Refused(Forbidden), host.state); }
      if !Protocol.Legal(v, q.resolution) { return Ended(false, Refused(StateConflict), host.state); }
      if q.resolution == Defer && (q.wakeMs.None? || !(now < q.wakeMs.value < v.dueMs)) {
        return Ended(false, Refused(SchemaInvalid), host.state);
      }
      var pol := RunPolicy(store.Snapshot(), v.run);
      if q.resolution == AcceptRisk && pol.None? { return Ended(false, Refused(ArtifactUnavailable), host.state); }
      var acceptMs := if pol.Some? then pol.value.reviewAcceptMs as nat else 0;
      var v2 := Resolved(v, q.resolution, now, acceptMs, q.wakeMs)
                .(revision := v.revision + 1, resolution := Some(q.reason), resolvedBy := Some(p.id));
      store.PutReview(now, ResolveKind(q.resolution), v2);
      Latch(v, q.resolution);
      return Ended(true, Changed(q.id, v2.revision, ReviewStateName(v2.state)), host.state);
    }

    method Latch(v: Review, action: ReviewAction)
      modifies store`actions
      ensures store.Snapshot() == LatchRejected(old(store.Snapshot()), v, action)
    {
      if action == Reject && v.kind == Blocking && v.check.Some? && v.check.value in store.checks {
        var key := (v.run, store.checks[v.check.value].intent.action);
        if key in store.actions { store.actions := store.actions[key := store.actions[key].(rejected := true)]; }
      }
    }

    // ---- timers ----

    method TickSilentRuns()
      modifies store
      ensures store.Snapshot() == TickSilence(old(store.Snapshot()), now)
    {
      hide PauseSilent, StaleChecks, Put;
      var ids, i := SilentRuns(store.Snapshot(), now), 0;
      while i < |ids|
        invariant i <= |ids| && HasRuns(store.Snapshot(), ids)
        invariant PauseSilent(store.Snapshot(), now, ids[i..]) == TickSilence(old(store.Snapshot()), now)
      {
        SilentStep(store.Snapshot(), now, ids, i);
        var r := store.runs[ids[i]];
        if r.state == Open {
          store.PutRun(now, RunPaused, Halt(r, Paused, "SOURCE_SILENCE"));
          ExpireRunChecks(ids[i]);
        }
        i := i + 1;
      }
      NoneLeft(store.Snapshot(), now, ids);
    }

    method TickDueReviews()
      modifies store
      ensures store.Snapshot() == TickDue(old(store.Snapshot()), now)
    {
      ExpireEach(DueReviews(store.Snapshot(), now));
    }

    method TickLeases()
      modifies store
      ensures store.Snapshot() == TickLease(old(store.Snapshot()), now)
    {
      hide ReleaseAll, Put, LeaseOver;
      var ids, i := LeaseIds(store.Snapshot(), now), 0;
      while i < |ids|
        invariant i <= |ids| && HasReviews(store.Snapshot(), ids)
        invariant ReleaseAll(store.Snapshot(), now, ids[i..]) == TickLease(old(store.Snapshot()), now)
      {
        ReleaseStep(store.Snapshot(), now, ids, i);
        var v := store.reviews[ids[i]];
        if LeaseOver(v, now) && now < v.dueMs { store.PutReview(now, ReviewReleased, Reopen(v)); }
        i := i + 1;
      }
      NoneLeft(store.Snapshot(), now, ids);
    }

    method TickWakes()
      modifies store
      ensures store.Snapshot() == TickWake(old(store.Snapshot()), now)
    {
      hide WakeAll, Put, WakeOver;
      var ids, i := WakeIds(store.Snapshot(), now), 0;
      while i < |ids|
        invariant i <= |ids| && HasReviews(store.Snapshot(), ids)
        invariant WakeAll(store.Snapshot(), now, ids[i..]) == TickWake(old(store.Snapshot()), now)
      {
        WakeStep(store.Snapshot(), now, ids, i);
        var v := store.reviews[ids[i]];
        if WakeOver(v, now) && now < v.dueMs { store.PutReview(now, ReviewWoken, Woken(v)); }
        i := i + 1;
      }
      NoneLeft(store.Snapshot(), now, ids);
    }

    // ---- finalization ----

    method Collect(slots: map<Id, MonitorSlot>) returns (vec: seq<Option<Result>>)
      ensures vec == SlotVector(slots, now)
    {
      hide Vector;
      var ids, i := Ascending(slots.Keys), 0;
      assert forall k | 0 <= k < |ids| :: ids[k] in ids;
      vec := [];
      NoVector(slots, now);
      assert ids[..0] == [];
      while i < |ids|
        invariant i <= |ids| && vec == Vector(slots, ids[..i], now)
      {
        VectorGrows(slots, ids, i, now);
        var s := slots[ids[i]];
        vec := vec + [if s.state == Done && now < s.deadlineMs then s.result else None];
        i := i + 1;
      }
      assert ids[..i] == ids;
    }

    method FinalizeCheck(c: Check, vec: seq<Option<Result>>)
      modifies store
      ensures store.Snapshot() == Finalize(old(store.Snapshot()), now, c, vec)
    {
      hide Put, ApplyOutcome, OutOfDate, RefIn, PolicyIn, Decide, Consumable, ActiveWithBasis, Findings, SettledResults;
      if c.run !in store.runs || PolicyOf(store.Snapshot(), c.policy).None? { return; }
      var r, p := store.runs[c.run], PolicyOf(store.Snapshot(), c.policy).value;
      if OutOfDate(store.Snapshot(), now, c, r, p) {
        store.PutCheck(now, CheckFinalized, Finish(c, Stale, "STALE"));
      } else if now >= c.deadlineMs && None in vec {
        store.PutCheck(now, CheckFinalized, Finish(c, CExpired, "MONITOR_TIMEOUT"));
      } else {
        assert ByRef(store.Snapshot(), c.observation).Some? by { InDateHasObservation(store.Snapshot(), now, c, r, p); }
        var o, settled := ByRef(store.Snapshot(), c.observation).value, SettledResults(vec);
        var b := CandidateBasis(c, r, o, settled);
        var held := ActiveWithBasis(store.Snapshot(), r.id, b);
        var existing := if held == {} then None else Some(Least(held));
        var consumed := Consumable(store.Snapshot(), now, c, r, b);
        var outcome := Decide(store.Snapshot(), now, c, r, p, b, vec);
        CommitOutcome(c.(results := settled), r, p, o, outcome, existing, consumed, b);
      }
    }

    lemma InDateHasObservation(db: Db, at: nat, c: Check, r: Run, p: Policy)
      requires !OutOfDate(db, at, c, r, p)
      ensures ByRef(db, c.observation).Some?
    {}

    method CommitOutcome(c: Check, r: Run, p: Policy, o: Observation, outcome: Outcome, existing: Option<Id>,
                         consumed: Option<Review>, b: Basis)
      modifies store
      ensures store.Snapshot() == ApplyOutcome(old(store.Snapshot()), now, c, r, p, o, outcome, existing, consumed, b)
    {
      hide Put, NewClearance, NewReview;
      match outcome
      case ODeny(why) => store.PutCheck(now, CheckFinalized, Finish(c, Deny, why));
      case OExpired(why) => store.PutCheck(now, CheckFinalized, Finish(c, CExpired, why));
      case OHeld(why, novel) =>
        if novel {
          var v := NewReview(store.Snapshot(), now, c, r, p, b, why);
          store.PutCheck(now, CheckFinalized, Finish(c, Held, why).(review := Some(v.id)));
          store.PutReview(now, ReviewOpened, v);
        } else {
          store.PutCheck(now, CheckFinalized,
                         Finish(c, Held, why).(review := if existing.Some? then existing else c.review));
        }
      case OClear =>
        var basis := b;
        if consumed.Some? {
          if consumed.value.basis.Some? { basis := consumed.value.basis.value; }
          store.PutReview(now, ReviewConsumed,
                          consumed.value.(state := Consumed, revision := consumed.value.revision + 1));
        }
        store.PutCheck(now, CheckFinalized,
                       Finish(c, CClear, "CLEAR").(clearance := Some(NewClearance(now, c, r, p, o, OfBasis(basis)))));
    }

    method MaybeFinalizeCheck(id: Id)
      modifies store
      ensures store.Snapshot() == MaybeFinalize(old(store.Snapshot()), now, id)
    {
      hide Finalize, SlotVector;
      if id !in store.checks || store.checks[id].state != Evaluating { return; }
      var c, slots := store.checks[id], SlotsOf(store.Snapshot(), id);
      var allDone := forall m | m in slots :: Settled(slots[m], now);
      if !allDone && now < c.deadlineMs { return; }
      var vec := Collect(slots);
      FinalizeCheck(c, vec);
    }

    method PutSlot(check: Id, monitor: Id, s: MonitorSlot)
      modifies store`slots
      ensures store.Snapshot() == SetSlot(old(store.Snapshot()), check, monitor, s)
    {
      store.slots := store.slots[check := SlotsOf(store.Snapshot(), check)[monitor := s]];
    }

    method ApplyMonitorReply(k: Completion)
      modifies store, this`host
      ensures (store.Snapshot(), host.state) == ApplyReply(old(store.Snapshot()), old(host.state), host.epoch, now, k)
      ensures host == old(host).(state := host.state)
    {
      hide MaybeFinalize, Put, Recompute;
      if k.slotMonitor !in SlotsOf(store.Snapshot(), k.check) || k.check !in store.checks { return; }
      var c, s := store.checks[k.check], store.slots[k.check][k.slotMonitor];
      if c.state != Evaluating || s.state == Done { return; }
      if now >= s.deadlineMs {
        PutSlot(k.check, k.monitor, MonitorSlot(s.deadlineMs, Timeout, None));
        MaybeFinalizeCheck(k.check);
        return;
      }
      if k.result.None? { return; }
      var expected := Recompute(store.Snapshot(), c, k.monitor);
      if expected.Some? && expected != k.result {
        store.Note(now, HostFaulted, AHost(Host(Faulted, host.epoch)));
        host := host.(state := Faulted);
        return;
      }
      PutSlot(k.check, k.monitor, MonitorSlot(s.deadlineMs, Done, k.result));
      MaybeFinalizeCheck(k.check);
    }

    // ---- requests ----

    method RateOk(principal: Id) returns (ok: bool)
      modifies this`rate
      ensures ok == TB.Admits(RateAt(old(View()), principal), now)
      ensures rate == old(rate)[principal := TB.After(RateAt(old(View()), principal), now)]
    {
      var b := if principal in rate then rate[principal] else TB.Bucket(TB.FULL, now);
      var elapsed := if now < b.lastMs then 0 else now - b.lastMs;
      var milli := b.milli + elapsed * TB.RATE;
      if milli > TB.FULL { milli := TB.FULL; }
      ok := milli >= 1000;
      if ok { milli := milli - 1000; }
      rate := rate[principal := TB.Bucket(milli, now)];
    }

    method Handler(p: Principal, q: Request) returns (e: Ended)
      modifies store
      ensures Carries(Handle(cfg, old(store.Snapshot()), host, now, p, q), old(store.Snapshot()), store.Snapshot(), e)
    {
      hide Drain, Activate, Start, Control, Observe, Create, Cancel, Claim, Resolve;
      match q
      case DrainHost => e := SystemDrain();
      case ActivatePolicy(sp, expected) => e := PolicyActivate(sp, expected);
      case OpenRun(_, _, _, _, _, _, _, _) => e := RunsOpen(p, q);
      case ControlRun(id, expected, action, why) => e := RunsControl(p, id, expected, action, why);
      case Append(so) => e := ObservationsAppend(p, so);
      case CreateCheck(_, _, _, _, _) => e := ChecksCreate(p, q);
      case CancelCheck(id, expected) => e := ChecksCancel(p, id, expected);
      case ClaimReview(named, expected) => e := ReviewsClaim(p, named, expected);
      case ResolveReview(_, _, _, _, _) => e := ReviewsResolve(p, q);
    }

    /** The idempotency row, or everything back to `before`. */
    method RowOrRollback(before: Db, idem: Option<((Id, Id), (Request, Reply))>) returns (ok: bool)
      modifies store
      ensures var d := WithRow(old(store.Snapshot()), idem);
              ok == d.Some? && store.Snapshot() == if d.Some? then d.value else before
    {
      if idem.None? { return true; }
      ok := store.InsertRow(idem.value.0, idem.value.1);
      if !ok { store.Restore(before); }
    }

    /** The handler's work becomes durable together with its reply, or not at all. `before` are the tables the
        transaction started from. */
    method Commit(before: Db, idem: ((Id, Id), (Request, Reply)), hs: HostState, fate: Fate, taken: set<(Id, Id)>)
      returns (a: Answered)
      modifies this`host, this`up, store
      ensures (View(), a) == Committed(old(View()).(db := before), old(store.Snapshot()), idem, hs, fate, taken)
    {
      hide WithRow, AfterCreate;
      if fate == AuditFails {
        store.Restore(before);
        host, up := host.(state := Faulted), false;
        return NoReply;
      }
      var ok := RowOrRollback(before, Some(idem));
      if !ok { return Replied(Refused(AuditUnavailable)); }
      if fate == CrashesBefore {
        store.Restore(before);
        up := false;
        return NoReply;
      }
      host := host.(state := hs);
      if fate == CrashesAfter { up := false; return NoReply; }
      if !idem.1.1.Refused? { SendNewJobs(idem, taken); }
      return Replied(idem.1.1);
    }

    /** Jobs of a check just created go out in a transaction of their own, which carries the request's row again. */
    method SendNewJobs(idem: ((Id, Id), (Request, Reply)), taken: set<(Id, Id)>)
      modifies store
      ensures store.Snapshot() == AfterCreate(old(store.Snapshot()), idem.1.0, idem, taken)
    {
      hide WithRow, TickOutbox;
      if idem.1.0.CreateCheck? && store.outbox != {} {
        var before := store.Snapshot();
        TakeJobs(taken);
        var ok := RowOrRollback(before, Some(idem));
      }
    }

    method TakeJobs(taken: set<(Id, Id)>)
      modifies store`outbox
      ensures store.Snapshot() == TickOutbox(old(store.Snapshot()), taken)
    {
      store.outbox := store.outbox - taken;
    }

    /** Whether a request may be served at all: the answer it gets if not. */
    method Turned(p: Principal, rid: Id, q: Request) returns (a: Option<Answered>)
      ensures a == TurnedAway(View(), p, rid, q)
    {
      if !RoleAllowed(p, q) { return Some(Replied(Refused(Forbidden))); }
      if (p.id, rid) in store.idempotency {
        var (q0, r0) := store.idempotency[(p.id, rid)];
        return Some(Replied(if q0 == q then r0 else Refused(IdempotencyConflict)));
      }
      if host.state == Draining && !DrainingAllowed(q) { return Some(Replied(Refused(StateConflict))); }
      if host.state !in {Ready, Draining} { return Some(Replied(Refused(AuditUnavailable))); }
      return None;
    }

    method DispatchRequest(p: Principal, rid: Id, q: Request, fate: Fate, taken: set<(Id, Id)>) returns (a: Answered)
      modifies this, store
      ensures (View(), a) == Dispatch(cfg, old(View()), p, rid, q, fate, taken)
    {
      hide Handle, Apply, TurnedAway, RateAt, TB.Admits, TB.After;
      var away := Turned(p, rid, q);
      if away.Some? { return away.value; }
      var ok := RateOk(p.id);
      if !ok { return Replied(Refused(RateLimited)); }
      a := Serve(p, rid, q, fate, taken);
    }

    method Serve(p: Principal, rid: Id, q: Request, fate: Fate, taken: set<(Id, Id)>) returns (a: Answered)
      modifies this`host, this`up, store
      ensures (View(), a) == Apply(old(View()), p, rid, q, Handle(cfg, old(store.Snapshot()), old(host), now, p, q),
                                   fate, taken)
    {
      hide Handle, Committed;
      var before := store.Snapshot();
      var e := Handler(p, q);
      if !e.wrote { return Replied(e.reply); }
      a := Commit(before, ((p.id, rid), (q, e.reply)), e.host, fate, taken);
    }

    // ---- the event loop ----

    method TickReviews()
      requires up && host.state != Faulted
      modifies store
      ensures View() == Reached(cfg, old(View()), [Silence, Due, Lease, Wake])
    {
      hide TickSilence, TickDue, TickLease, TickWake;
      ghost var s := View();
      TickSilentRuns();
      TickDueReviews();
      TickLeases();
      TickWakes();
      AfterReviews(cfg, s);
    }

    method TickFinalizations(ids: seq<Id>)
      requires up && host.state != Faulted
      modifies store
      ensures View() == Reached(cfg, old(View()), Finalizing(ids))
    {
      hide MaybeFinalize;
      ghost var s, acts := View(), Finalizing(ids);
      var i := 0;
      while i < |ids|
        invariant i <= |ids| && View() == Reached(cfg, s, acts[..i])
      {
        MaybeFinalizeCheck(ids[i]);
        assert acts[..i + 1] == acts[..i] + [FinalizeOne(ids[i])];
        ReachedOne(cfg, s, acts[..i], FinalizeOne(ids[i]));
        i := i + 1;
      }
      assert acts[..i] == acts;
    }

    /** The windows of a run that are due and of which nothing is recorded. */
    method DueStarts(id: Id) returns (due: seq<nat>)
      ensures due == DueWindows(store.windows, id, now, FirstStart(store.audit, id), 0)
    {
      var start := FirstStart(store.audit, id);
      due := [];
      while start + WINDOW_MS + WINDOW_DUE_MS <= now
        invariant due + DueWindows(store.windows, id, now, start, |due|)
                  == DueWindows(store.windows, id, now, FirstStart(store.audit, id), 0)
        decreases now - start
      {
        if (id, start) !in store.windows {
          due := due + [start];
          if |due| > DUE_TOTAL { return; }
        }
        start := start + WINDOW_MS;
      }
    }

    /** What each trailing monitor says of a window that never came. */
    method MissingAnswers(r: Run, p: Policy) returns (answers: seq<Result>)
      ensures answers == Missed(store.Snapshot(), r, p)
    {
      hide Latest;
      var ids, i := TrailingIds(p), 0;
      answers := [];
      while i < |ids|
        invariant i <= |ids| && answers == Missed(store.Snapshot(), r, p)[..i]
      {
        answers := answers + [WindowMissing(store.Snapshot(), r, FindMonitor(p.monitors, ids[i]).value)];
        i := i + 1;
      }
    }

    method AttemptWindow(id: Id, start: nat)
      modifies store
      ensures store.Snapshot() == Attempted(old(store.Snapshot()), now, id, start)
    {
      hide Put, PolicyIn, Missed, D.Next, Latest;
      var pol := RunPolicy(store.Snapshot(), id);
      if id !in store.runs || store.runs[id].state !in {Open, Paused} || pol.None? { return; }
      var r := store.runs[id];
      var answers := MissingAnswers(r, pol.value);
      if (id, start) !in store.windows { store.windows := store.windows[(id, start) := None]; }
      ghost var marked := Marked(old(store.Snapshot()), id, start);
      assert store.Snapshot() == marked;
      store.Note(now, TrailingEvaluated, AWindow(id, start, answers));
      var drift := D.Step(r.drift, D.Slot(start, D.NoWindow), pol.value);
      if drift != r.drift {
        store.PutRun(now, DriftUpdated, r.(drift := drift, revision := r.revision + 1));
      }
    }

    method ProcessWindows(id: Id)
      modifies store
      ensures store.Snapshot() == PassWindows(old(store.Snapshot()), now, id)
    {
      hide Attempted, DueWindows, FirstStart;
      var due := DueStarts(id);
      var i := 0;
      while i < |due|
        invariant i <= |due|
        invariant AttemptAll(store.Snapshot(), now, id, due[i..]) == PassWindows(old(store.Snapshot()), now, id)
      {
        assert due[i..][1..] == due[i + 1..];
        AttemptWindow(id, due[i]);
        i := i + 1;
      }
    }

    method TickWindows()
      requires up && host.state != Faulted
      modifies store
      ensures View() == Reached(cfg, old(View()), Passing(LiveRunIds(old(store.Snapshot()))))
    {
      hide Step, PassWindows, LiveRunIds;
      var ids := LiveRunIds(store.Snapshot());
      ghost var s, acts := View(), Passing(ids);
      var i := 0;
      while i < |ids|
        invariant i <= |ids| && View() == Reached(cfg, s, acts[..i])
      {
        WindowsStep(cfg, View(), ids[i]);
        ProcessWindows(ids[i]);
        assert acts[..i + 1] == acts[..i] + [Windows(ids[i])];
        ReachedOne(cfg, s, acts[..i], Windows(ids[i]));
        i := i + 1;
      }
      assert acts[..i] == acts;
    }

    /** Replies already drained are all applied, even after one of them has faulted the host. */
    method TickReplies(replies: seq<Completion>)
      requires up
      modifies store, this`host
      ensures View() == Reached(cfg, old(View()), Replying(replies))
    {
      hide ApplyReply;
      ghost var s, acts := View(), Replying(replies);
      var i := 0;
      while i < |replies|
        invariant i <= |replies| && View() == Reached(cfg, s, acts[..i])
      {
        ApplyMonitorReply(replies[i]);
        assert acts[..i + 1] == acts[..i] + [MonitorReply(replies[i])];
        ReachedOne(cfg, s, acts[..i], MonitorReply(replies[i]));
        i := i + 1;
      }
      assert acts[..i] == acts;
    }

    /** Finalizations, the window pass, the jobs handed out and the replies taken in, in this order. */
    method TickRest(taken: set<(Id, Id)>, replies: seq<Completion>)
      requires up && host.state != Faulted
      modifies this`host, store
      ensures View() == Reached(cfg, old(View()), LaterActions(old(store.Snapshot()), taken, replies))
    {
      hide Reached, Finalizing, Passing, Replying, LiveRunIds;
      ghost var s := View();
      var ids := EvaluatingIds(store.Snapshot(), None);
      ghost var acts, live := Finalizing(ids), Passing(LiveRunIds(store.Snapshot()));
      TickFinalizations(ids);
      FinalizingKeepsRuns(cfg, s, ids);
      SameLiveRuns(s.db, store.Snapshot());
      ReachedSplits(cfg, s, acts, live);
      TickWindows();
      acts := acts + live;
      TakeJobs(taken);
      ReachedOne(cfg, s, acts, Outbox(taken));
      acts := acts + [Outbox(taken)];
      ReachedSplits(cfg, s, acts, Replying(replies));
      TickReplies(replies);
    }

    /** One pass over everything due now, in the daemon's fixed order. */
    method Tick(taken: set<(Id, Id)>, replies: seq<Completion>)
      requires up
      modifies this`host, store
      ensures View() == if old(host.state) == Faulted then old(View())
                        else Reached(cfg, old(View()), TickActions(old(store.Snapshot()), now, taken, replies))
    {
      hide AfterTimers, Reached, LaterActions;
      if host.state == Faulted { return; }
      ghost var s := View();
      TickReviews();
      AfterReviews(cfg, s);
      ReachedSplits(cfg, s, [Silence, Due, Lease, Wake], LaterActions(store.Snapshot(), taken, replies));
      TickRest(taken, replies);
    }

    // ---- start ----

    /** A start is three transactions; `parts` of them commit before the process dies again, if it does. */
    method Boot(parts: nat, minimumHead: nat)
      modifies this, store
      ensures View() == Restart(old(View()), parts, minimumHead)
    {
      hide Put, Recovered;
      up := false;
      if parts == 0 { return; }
      store.hostEpoch := store.hostEpoch + 1;
      store.Note(now, HostStarted, AHost(Host(Starting, store.hostEpoch)));
      var epoch := store.hostEpoch;
      if parts == 1 { return; }
      if |store.audit| < minimumHead {
        store.Note(now, HostFaulted, AHost(Host(Faulted, store.hostEpoch)));
        return;
      }
      Recover();
      if parts == 2 { return; }
      store.Note(now, HostReady, AHost(Host(Ready, store.hostEpoch)));
      host, rate, up := Host(Ready, epoch), map[], true;
    }

    /** What the crash left behind cannot be trusted: OPEN runs pause, active reviews and evaluating checks expire. */
    method Recover()
      modifies store
      ensures store.Snapshot() == Recovered(old(store.Snapshot()), now)
    {
      hide PauseAll, FinishAll, ExpireAll, Put;
      var ids, i := OpenRunIds(store.Snapshot()), 0;
      while i < |ids|
        invariant i <= |ids| && HasRuns(store.Snapshot(), ids)
        invariant PauseAll(store.Snapshot(), now, ids[i..]) == PauseAll(old(store.Snapshot()), now, ids)
      {
        PauseStep(store.Snapshot(), now, ids, i);
        store.PutRun(now, RunPaused, Halt(store.runs[ids[i]], Paused, "RESTART"));
        i := i + 1;
      }
      NoneLeft(store.Snapshot(), now, ids);
      ExpireEach(ActiveReviewIds(store.Snapshot(), None));
      FinishEach(EvaluatingIds(store.Snapshot(), None), CExpired, "RESTART");
    }
  }
}
