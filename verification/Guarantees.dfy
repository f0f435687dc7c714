/** What clients and auditors of this daemon can rely on, over any run from an empty store. */
module Guarantees {
  import opened Basics
  import opened Ids
  import opened Records
  import opened Store
  import opened Detect
  import opened Protocol
  import opened Timers
  import opened Safety
  import opened Invariants
  import opened Intake
  import opened TimersKeep
  import opened System
  import Queue
  import TB = TokenBucket

  // ---- lifecycles ----

  /** At every reachable point: OPEN runs are bound to the active policy, EVALUATING checks belong to an OPEN run
      under the same policy, active reviews to an OPEN or PAUSED run, one per basis. */
  lemma Bindings(cfg: Config, acts: seq<Action>)
    ensures var db := Reached(cfg, COLD, acts).db;
            && (forall id | id in db.runs && db.runs[id].state == Open ::
                  ActivePolicy(db).Some? && db.runs[id].policy == OfPolicy(ActivePolicy(db).value))
            && (forall id | id in db.checks && db.checks[id].state == Evaluating ::
                  && db.checks[id].run in db.runs && db.runs[db.checks[id].run].state == Open
                  && db.runs[db.checks[id].run].policy == db.checks[id].policy)
            && (forall id | id in db.reviews && Active(db.reviews[id].state) ::
                  db.reviews[id].run in db.runs && db.runs[db.reviews[id].run].state in {Open, Paused})
            && (forall a, b | a in db.reviews && b in db.reviews && SameActiveBasis(db.reviews[a], db.reviews[b]) ::
                  a == b)
  {
    hide Reached, Extends;
    Always(cfg, acts, |acts|);
    BoundTables(Reached(cfg, COLD, acts).db);
  }

  lemma BoundTables(db: Db)
    requires Inv(db)
    ensures forall id | id in db.runs && db.runs[id].state == Open ::
              ActivePolicy(db).Some? && db.runs[id].policy == OfPolicy(ActivePolicy(db).value)
    ensures forall id | id in db.checks && db.checks[id].state == Evaluating ::
              && db.checks[id].run in db.runs && db.runs[db.checks[id].run].state == Open
              && db.runs[db.checks[id].run].policy == db.checks[id].policy
    ensures forall id | id in db.reviews && Active(db.reviews[id].state) ::
              db.reviews[id].run in db.runs && db.runs[db.reviews[id].run].state in {Open, Paused}
    ensures forall a, b | a in db.reviews && b in db.reviews && SameActiveBasis(db.reviews[a], db.reviews[b]) :: a == b
  {
    hide Kept, SlotsOk, StreamsOk, ClearsOk, PoliciesOk;
    forall id | id in db.checks && db.checks[id].state == Evaluating ensures EvaluatingOk(db.runs, db.checks[id]) {}
  }

  /** From any point of a run to any later one: terminal checks and closed runs never change, a quarantined run can
      only close, a review that left the active states never returns, and no identity is ever rebound. */
  lemma Lifecycles(cfg: Config, acts: seq<Action>, n: nat)
    requires n <= |acts|
    ensures var before, db := Reached(cfg, COLD, acts[..n]).db, Reached(cfg, COLD, acts).db;
            && (forall id | id in before.checks :: id in db.checks
                  && SameCheckIdentity(before.checks[id], db.checks[id])
                  && (Terminal(before.checks[id].state) ==> db.checks[id] == before.checks[id]))
            && (forall id | id in before.runs :: id in db.runs
                  && SameRunIdentity(before.runs[id], db.runs[id])
                  && (before.runs[id].state == Closed ==> db.runs[id] == before.runs[id])
                  && (before.runs[id].state == Quarantined ==> db.runs[id].state in {Quarantined, Closed}))
            && (forall id | id in before.reviews :: id in db.reviews
                  && db.reviews[id].basis == before.reviews[id].basis
                  && (!Active(before.reviews[id].state) ==> !Active(db.reviews[id].state)))
            && before.audit <= db.audit && before.policies <= db.policies
  {
    var before, db := Reached(cfg, COLD, acts[..n]).db, Reached(cfg, COLD, acts).db;
    hide Inv, Extends, Reached, SameRunIdentity, SameCheckIdentity;
    Always(cfg, acts, n);
    Always(cfg, acts[..n], n);
    assert acts[..n][..n] == acts[..n];
    TablesMoveOn(before, db);
  }

  lemma TablesMoveOn(before: Db, db: Db)
    requires Inv(before) && Safe(before, db)
    ensures forall id | id in before.checks :: id in db.checks
              && SameCheckIdentity(before.checks[id], db.checks[id])
              && (Terminal(before.checks[id].state) ==> db.checks[id] == before.checks[id])
    ensures forall id | id in before.runs :: id in db.runs
              && SameRunIdentity(before.runs[id], db.runs[id])
              && (before.runs[id].state == Closed ==> db.runs[id] == before.runs[id])
              && (before.runs[id].state == Quarantined ==> db.runs[id].state in {Quarantined, Closed})
    ensures forall id | id in before.reviews :: id in db.reviews
              && db.reviews[id].basis == before.reviews[id].basis
              && (!Active(before.reviews[id].state) ==> !Active(db.reviews[id].state))
    ensures before.audit <= db.audit && before.policies <= db.policies
  {
    hide PoliciesOk, RunsOk, StreamsOk, ChecksOk, ReviewsOk, ClearsOk, Chained, Lawful, SameRunIdentity,
         SameCheckIdentity;
    assert db.audit[..|before.audit|] == before.audit;
    LifecyclesHold(db.audit, |before.audit|);
  }

  /** Over any run: what an event is called is what its value shows. A review is recorded as rejected, accepted or
      consumed, a run as paused, quarantined or closed, a check as finalized, exactly by an event of that kind. */
  lemma KindsFit(cfg: Config, acts: seq<Action>, i: nat)
    requires i < |Reached(cfg, COLD, acts).db.audit|
    ensures var e := Reached(cfg, COLD, acts).db.audit[i];
            && KindFits(e.kind, e.value)
            && (e.kind == ReviewRejected <==> e.value.AReview? && e.value.review.state == Rejected)
            && (e.kind == ReviewAccepted <==> e.value.AReview? && e.value.review.state == Accepted)
            && (e.kind == ReviewConsumed <==> e.value.AReview? && e.value.review.state == Consumed)
            && (e.kind == RunQuarantined <==> e.value.ARun? && e.value.run.state == Quarantined)
            && (e.kind == RunClosed <==> e.value.ARun? && e.value.run.state == Closed)
            && (e.kind == CheckFinalized <==> e.value.ACheck? && e.value.check.state != Evaluating)
  {
    hide Reached, Inv, Extends, KindFits;
    Always(cfg, acts, |acts|);
    var db := Reached(cfg, COLD, acts).db;
    EventsFit(db, i);
    FitMeans(db.audit[i].kind, db.audit[i].value);
  }

  lemma EventsFit(db: Db, i: nat)
    requires Inv(db) && i < |db.audit|
    ensures KindFits(db.audit[i].kind, db.audit[i].value)
  {
    hide PoliciesOk, RunsOk, StreamsOk, ChecksOk, ReviewsOk, ClearsOk, Mirrored, LegalSubject, KindFits;
    assert LegalAt(db.audit, i);
  }

  lemma FitMeans(kind: Kind, s: Subject)
    requires KindFits(kind, s)
    ensures kind == ReviewRejected <==> s.AReview? && s.review.state == Rejected
    ensures kind == ReviewAccepted <==> s.AReview? && s.review.state == Accepted
    ensures kind == ReviewConsumed <==> s.AReview? && s.review.state == Consumed
    ensures kind == RunQuarantined <==> s.ARun? && s.run.state == Quarantined
    ensures kind == RunClosed <==> s.ARun? && s.run.state == Closed
    ensures kind == CheckFinalized <==> s.ACheck? && s.check.state != Evaluating
  {}

  // ---- no fail-open ----

  /** Every CLEAR check of a reachable state was cleared by one event at which everything the policy demands held:
      scopes, spend, replicas, freshness, recomputed results in time, and a consumed review if the cost needs one. */
  lemma NoFailOpen(cfg: Config, acts: seq<Action>, id: Id) returns (i: nat)
    requires id in Reached(cfg, COLD, acts).db.checks && Reached(cfg, COLD, acts).db.checks[id].state == CClear
    ensures var db := Reached(cfg, COLD, acts).db;
            && i < |db.audit| && db.audit[i].value == ACheck(db.checks[id])
            && Justified(db, i)
  {
    var db := Reached(cfg, COLD, acts).db;
    Always(cfg, acts, |acts|);
    hide PoliciesOk, RunsOk, StreamsOk, ChecksOk, ReviewsOk, Chained, Lawful, Justified, Reached;
    i := LastEventOfCheck(db.audit, id);
    assert ClearEvent(db.audit[i]);
  }

  /** The review that paid for a clearance was accepted by whoever held the claim on it. */
  lemma PaidByHolder(audit: seq<Event>, i: nat, c: Check, o: Observation) returns (j: nat)
    requires Lawful(audit) && i < |audit| && PaidBy(audit, i, c, o)
    ensures j < i - 1 && audit[j].value.AReview?
    ensures var id, u, prior := audit[i - 1].value.review.id, audit[j].value.review, ReviewsOf(audit[..j]);
            && u.id == id && u.state == Accepted
            && id in prior && prior[id].state == Claimed && prior[id].owner.Some? && u.resolvedBy == prior[id].owner
  {
    var id := audit[i - 1].value.review.id;
    j := LastEventOfReview(audit[..i - 1], id);
    assert audit[..i - 1][j] == audit[j];
    assert LegalAt(audit, j);
  }

  /** No review ever pays for two clearances. */
  lemma OneReviewOneClearance(audit: seq<Event>, i: nat, j: nat, c: Check, d: Check, o: Observation, u: Observation)
    requires Lawful(audit) && i < j < |audit|
    requires PaidBy(audit, i, c, o) && PaidBy(audit, j, d, u)
    ensures audit[i - 1].value.review.id != audit[j - 1].value.review.id
  {
    if audit[i - 1].value.review.id == audit[j - 1].value.review.id {
      var id := audit[i - 1].value.review.id;
      var late := audit[..j - 1];
      PrefixLawful(audit, j - 1);
      assert late[..i] == audit[..i];
      assert audit[..i] == audit[..i - 1] + [audit[i - 1]];
      ReplayGrows(audit[..i - 1], audit[i - 1]);
      LifecyclesHold(late, i);
    }
  }

  // ---- exactly once ----

  function AnswerTo(cfg: Config, s: Sys, a: Action): Answered
    requires a.Ask?
  {
    if s.up then Dispatch(cfg, s, a.p, a.rid, a.q, a.fate, a.taken).1 else NoReply
  }

  function Key(a: Action): (Id, Id)
    requires a.Ask?
  {
    (a.p.id, a.rid)
  }

  ghost predicate SameRows(db: Db, next: Db) { next.idempotency == db.idempotency && next.cursors == db.cursors }

  /** No observation, no window and no quarantine is new, and drift states stay WARMUP. */
  ghost predicate SameIntake(db: Db, next: Db) {
    && next.observations == db.observations && next.windows == db.windows
    && NoneNewlyIsolated(db.runs, next.runs) && DriftsKept(db.runs, next.runs)
  }

  /** The drift state of a run whose windows all went missing. */
  predicate Warm(d: Drift) {
    d.state == Warmup && d.highStreak == 0 && d.lowStreak == 0 && d.scoreBp == None && d.data == DataMissing
  }

  ghost predicate AllWarm(runs: map<Id, Run>) { forall id | id in runs :: Warm(runs[id].drift) }

  ghost predicate DriftsKept(runs: map<Id, Run>, later: map<Id, Run>) { AllWarm(runs) ==> AllWarm(later) }

  ghost predicate NoneNewlyIsolated(runs: map<Id, Run>, later: map<Id, Run>) {
    forall id | id in later && later[id].state == Quarantined :: id in runs && runs[id].state == Quarantined
  }

  lemma DrainLeavesRows(db: Db, host: Host, now: nat)
    ensures var plan := Drain(db, host, now); plan.Commit? ==> SameRows(db, plan.db) && SameIntake(db, plan.db)
  {
    hide RowOf, PolicyConstraints, Covers, RefIn, PolicyIn, Newest, Queue.NextOpen, Admissible, ResumeFault,
         CreateFault, Legal, Resolved, NextEvent;
  }

  lemma {:induction false} ReplaceIsolatesNone(db: Db, now: nat, ids: seq<Id>)
    requires HasRuns(db, ids)
    ensures NoneNewlyIsolated(db.runs, ReplaceAll(db, now, ids).runs)
    ensures DriftsKept(db.runs, ReplaceAll(db, now, ids).runs)
    decreases |ids|
  {
    hide Put, FinishAll, ExpireAll;
    if ids != [] {
      PutFrame(db, now, RunPaused, ARun(Halt(db.runs[ids[0]], Paused, "POLICY_REPLACED")));
      var d := Put(db, now, RunPaused, ARun(Halt(db.runs[ids[0]], Paused, "POLICY_REPLACED")));
      ReplaceIsolatesNone(ExpireReviews(StaleChecks(d, now, ids[0]), now, ids[0]), now, ids[1..]);
    }
  }

  lemma ActivateLeavesRows(cfg: Config, db: Db, host: HostState, now: nat, sp: Signed<Policy>, expected: Counter)
    ensures var plan := Activate(cfg, db, host, now, sp, expected); plan.Commit? ==>
              SameRows(db, plan.db) && SameIntake(db, plan.db)
  {
    hide RowOf, PolicyConstraints, Covers, RefIn, PolicyIn, Newest, Queue.NextOpen, Admissible, ResumeFault,
         CreateFault, Legal, Resolved, NextEvent, ReplaceAll;
    var d := Put(db.(policies := db.policies + [sp.body]), now, PolicyActivated, APolicy(sp.body));
    ReplaceIsolatesNone(d, now, OpenRunIds(d));
  }

  lemma StartLeavesRows(cfg: Config, db: Db, host: HostState, now: nat, p: Principal, q: Request)
    requires q.OpenRun?
    ensures var plan := Start(cfg, db, host, now, p, q); plan.Commit? ==>
              SameRows(db, plan.db) && SameIntake(db, plan.db)
  {
    hide RowOf, PolicyConstraints, Covers, RefIn, PolicyIn, Newest, Queue.NextOpen, Admissible, ResumeFault,
         CreateFault, Legal, Resolved, NextEvent;
  }

  lemma ControlLeavesRows(db: Db, host: HostState, now: Counter, p: Principal, id: Id, expected: nat,
                          action: RunAction, reason: string)
    ensures var plan := Control(db, host, now, p, id, expected, action, reason);
            plan.Commit? ==> SameRows(db, plan.db) && SameIntake(db, plan.db)
  {
    hide Put, ResumeFault, FinishAll, ExpireAll;
    if Control(db, host, now, p, id, expected, action, reason).Commit? {
      var r := db.runs[id];
      PutFrame(db, now, RunPaused, ARun(Halt(r, Paused, reason)));
      PutFrame(db, now, RunResumed, ARun(r.(state := Open, pauseReason := None, revision := r.revision + 1)));
      PutFrame(db, now, RunClosed, ARun(Halt(r, Closed, reason)));
    }
  }

  lemma HaltsLeaveRows(db: Db, host: HostState, now: nat, r: Run, c: Code)
    ensures PauseSource(db, host, now, r, c).Commit? && SameRows(db, PauseSource(db, host, now, r, c).db)
    ensures Quarantine(db, host, now, r, c).Commit? && SameRows(db, Quarantine(db, host, now, r, c).db)
  {
    hide Put, FinishAll, ExpireAll;
    PutFrame(db, now, RunPaused, ARun(Halt(r, Paused, CodeName(c))));
    PutFrame(db, now, RunQuarantined, ARun(Halt(r, Quarantined, CodeName(c))));
  }

  lemma ObserveLeavesRows(cfg: Config, db: Db, host: HostState, now: Counter, p: Principal, so: Signed<Observation>)
    ensures Observe(cfg, db, host, now, p, so).Commit? ==> SameRows(db, Observe(cfg, db, host, now, p, so).db)
  {
    hide RowOf, RefIn, Admissible, NextEvent, Quarantine, PauseSource;
    if so.body.run in db.runs {
      var r := db.runs[so.body.run];
      HaltsLeaveRows(db, host, now, r, SourceFork);
      HaltsLeaveRows(db, host, now, r, SourceGap);
      HaltsLeaveRows(db, host, now, r, CounterRollback);
      if Admissible(db, now, r, so.body).Isolate? {
        HaltsLeaveRows(db, host, now, r, Admissible(db, now, r, so.body).code);
      }
    }
  }

  lemma CreateLeavesRows(db: Db, host: HostState, now: Counter, p: Principal, q: Request)
    requires q.CreateCheck?
    ensures Create(db, host, now, p, q).Commit? ==> SameRows(db, Create(db, host, now, p, q).db)
    ensures Create(db, host, now, p, q).Commit? ==> SameIntake(db, Create(db, host, now, p, q).db)
  {
    hide CreateFault, Newest, PendingSlots, RequiredMonitors, Jobs, Put, Finish;
    if Create(db, host, now, p, q).Commit? {
      Creatable(db, now, p, q);
      var pol := ActivePolicy(db).value;
      var c := Check(q.id, 1, q.run, q.intent, q.ref, OfPolicy(pol), Evaluating, now, now + pol.evaluationMs, [],
                     q.review, None, "PENDING");
      var ms, latched := RequiredMonitors(pol.monitors), Latched(db, q.run, q.intent.action);
      var d1 := Put(db, now, CheckStarted, ACheck(c));
      var d2 := Registered(d1, q, ms, now, latched);
      PutFrame(db, now, CheckStarted, ACheck(c));
      PutFrame(d2, now, CheckFinalized, ACheck(Finish(c, Deny, "REVIEW_REJECTED")));
    }
  }

  lemma CancelLeavesRows(db: Db, host: HostState, now: nat, p: Principal, id: Id, expected: nat)
    ensures var plan := Cancel(db, host, now, p, id, expected); plan.Commit? ==>
              SameRows(db, plan.db) && SameIntake(db, plan.db)
  {
    hide RowOf, PolicyConstraints, Covers, RefIn, PolicyIn, Newest, Queue.NextOpen, Admissible, ResumeFault,
         CreateFault, Legal, Resolved, NextEvent;
  }

  lemma IntakeSame(db: Db, next: Db)
    requires next.observations == db.observations && next.windows == db.windows && next.runs == db.runs
    ensures SameIntake(db, next)
  {}

  lemma ServedFrame(db: Db, v: Review)
    ensures var d := Served(db, v);
            d.observations == db.observations && d.windows == db.windows && d.runs == db.runs
                && d.idempotency == db.idempotency
  {}

  lemma ClaimLeavesRows(db: Db, host: HostState, now: Counter, p: Principal, v: Review, expected: Option<nat>)
    ensures var plan := ClaimThis(db, host, now, p, v, expected);
            plan.Commit? ==> plan.db.idempotency == db.idempotency && SameIntake(db, plan.db)
  {
    hide PolicyIn, Put, ClaimedBy, Expire, SameIntake, Served;
    var plan := ClaimThis(db, host, now, p, v, expected);
    if plan.Commit? {
      PutFrame(db, now, ReviewExpired, AReview(Expire(v)));
      var v2 := ClaimedBy(v, p, now, RunPolicy(db, v.run).value.claimLeaseMs);
      PutFrame(db, now, ReviewClaimed, AReview(v2));
      ServedFrame(Put(db, now, ReviewClaimed, AReview(v2)), v);
      IntakeSame(db, plan.db);
    }
  }

  lemma PutReviewLeavesRows(db: Db, now: nat, kind: Kind, v: Review, was: Review, action: ReviewAction)
    ensures SameRows(db, Put(db, now, kind, AReview(v)))
    ensures SameRows(db, LatchRejected(Put(db, now, kind, AReview(v)), was, action))
    ensures SameIntake(db, Put(db, now, kind, AReview(v)))
    ensures SameIntake(db, LatchRejected(Put(db, now, kind, AReview(v)), was, action))
  {
    hide RowOf, NextEvent;
  }

  lemma ResolveLeavesRows(db: Db, host: HostState, now: nat, p: Principal, q: Request)
    requires q.ResolveReview?
    ensures var plan := Resolve(db, host, now, p, q); plan.Commit? ==> SameRows(db, plan.db) && SameIntake(db, plan.db)
  {
    hide RowOf, NextEvent, PolicyIn, Legal, Resolved, Put, LatchRejected, SameRows, SameIntake, ReviewStateName;
    forall kind, v ensures SameRows(db, Put(db, now, kind, AReview(v)))
        && SameIntake(db, Put(db, now, kind, AReview(v)))
    {
      PutReviewLeavesRows(db, now, kind, v, v, q.resolution);
    }
    forall kind, v, w ensures SameRows(db, LatchRejected(Put(db, now, kind, AReview(v)), w, q.resolution))
                           && SameIntake(db, LatchRejected(Put(db, now, kind, AReview(v)), w, q.resolution))
    {
      PutReviewLeavesRows(db, now, kind, v, w, q.resolution);
    }
  }

  lemma HandlersLeaveRows(cfg: Config, db: Db, host: Host, now: Counter, p: Principal, q: Request)
    ensures Handle(cfg, db, host, now, p, q).Commit? ==>
              && Handle(cfg, db, host, now, p, q).db.idempotency == db.idempotency
              && (!q.ClaimReview? ==> Handle(cfg, db, host, now, p, q).db.cursors == db.cursors)
              && (!q.Append? ==> SameIntake(db, Handle(cfg, db, host, now, p, q).db))
  {
    hide RowOf, PolicyConstraints, Covers, RefIn, PolicyIn, Newest, Queue.NextOpen, Admissible, ResumeFault,
         CreateFault, Legal, Resolved, Drain, Activate, Start, Control, Observe, Create, Cancel, ClaimThis, Resolve,
         Protocol.NextOpen;
    match q
    case DrainHost => DrainLeavesRows(db, host, now);
    case ActivatePolicy(sp, e) => ActivateLeavesRows(cfg, db, host.state, now, sp, e);
    case OpenRun(_, _, _, _, _, _, _, _) => StartLeavesRows(cfg, db, host.state, now, p, q);
    case ControlRun(id, e, a, why) => ControlLeavesRows(db, host.state, now, p, id, e, a, why);
    case Append(so) => ObserveLeavesRows(cfg, db, host.state, now, p, so);
    case CreateCheck(_, _, _, _, _) => CreateLeavesRows(db, host.state, now, p, q);
    case CancelCheck(id, e) => CancelLeavesRows(db, host.state, now, p, id, e);
    case ClaimReview(named, e) =>
      if Found(db, named).Some? { ClaimLeavesRows(db, host.state, now, p, Found(db, named).value, e); }
    case ResolveReview(_, _, _, _, _) => ResolveLeavesRows(db, host.state, now, p, q);
  }

  /** A request that changes anything durable leaves its row behind; its reply is what the row stores. */
  lemma ChangeLeavesRow(cfg: Config, s: Sys, a: Action)
    requires a.Ask? && Step(cfg, s, a).db != s.db
    ensures Key(a) !in s.db.idempotency && Key(a) in Step(cfg, s, a).db.idempotency
    ensures var plan := Handle(cfg, s.db, s.host, s.now, a.p, a.q);
            && plan.Commit?
            && Step(cfg, s, a).db.idempotency[Key(a)] == (a.q, plan.out)
            && (AnswerTo(cfg, s, a) == Replied(plan.out) || (a.fate == CrashesAfter && AnswerTo(cfg, s, a) == NoReply))
  {
    hide Handle, RoleAllowed, TB.Admits, TB.After, AfterCreate;
    var plan := Handle(cfg, s.db, s.host, s.now, a.p, a.q);
    HandlersLeaveRows(cfg, s.db, s.host, s.now, a.p, a.q);
    if plan.Commit? {
      var d := plan.db.(idempotency := plan.db.idempotency[Key(a) := (a.q, plan.out)]);
      NestedOutboxRollsBack(d, a.q, (Key(a), (a.q, plan.out)), a.taken);
    }
  }

  lemma RowsStay(cfg: Config, acts: seq<Action>, n: nat, key: (Id, Id))
    requires n <= |acts| && key in Reached(cfg, COLD, acts[..n]).db.idempotency
    ensures key in Reached(cfg, COLD, acts).db.idempotency
    ensures Reached(cfg, COLD, acts).db.idempotency[key] == Reached(cfg, COLD, acts[..n]).db.idempotency[key]
  {
    Always(cfg, acts, n);
    hide Inv, Reached;
  }

  /** Exactly once, over any sequence of requests, crashes, restarts, timers and retries: if request i changed
      anything durable, every later request under its key changes nothing at all, and is answered with the reply of
      request i if it asks for the same thing and refused otherwise. */
  lemma ExactlyOnce(cfg: Config, acts: seq<Action>, i: nat, j: nat)
    requires i < j < |acts| && acts[i].Ask? && acts[j].Ask? && Key(acts[i]) == Key(acts[j])
    requires Reached(cfg, COLD, acts[..i + 1]).db != Reached(cfg, COLD, acts[..i]).db
    ensures Reached(cfg, COLD, acts[..j + 1]) == Reached(cfg, COLD, acts[..j])
    ensures var s := Reached(cfg, COLD, acts[..i]);
            var plan := Handle(cfg, s.db, s.host, s.now, acts[i].p, acts[i].q);
            var t := Reached(cfg, COLD, acts[..j]);
            && plan.Commit?
            && (t.up && RoleAllowed(acts[j].p, acts[j].q) ==>
                  AnswerTo(cfg, t, acts[j])
                      == Replied(if acts[j].q == acts[i].q then plan.out else Refused(IdempotencyConflict)))
  {
    hide Handle, RoleAllowed, Reached;
    StepOfRun(cfg, acts, i);
    StepOfRun(cfg, acts, j);
    ChangeLeavesRow(cfg, Reached(cfg, COLD, acts[..i]), acts[i]);
    assert acts[..j][..i + 1] == acts[..i + 1];
    RowsStay(cfg, acts[..j], i + 1, Key(acts[i]));
  }

  lemma StepOfRun(cfg: Config, acts: seq<Action>, i: nat)
    requires i < |acts|
    ensures Reached(cfg, COLD, acts[..i + 1]) == Step(cfg, Reached(cfg, COLD, acts[..i]), acts[i])
  {
    hide Step;
    assert acts[..i + 1][..i] == acts[..i];
  }

  // ---- the rejection latch ----

  /** Once an action of a run has been rejected in review it stays rejected, and every check created for it from then
      on is denied in the transaction that creates it. */
  lemma RejectionLatches(cfg: Config, acts: seq<Action>, n: nat, run: Id, action: Id, p: Principal, q: Request)
    requires n <= |acts| && Latched(Reached(cfg, COLD, acts[..n]).db, run, action)
    requires q.CreateCheck? && q.run == run && q.intent.action == action
    ensures var s := Reached(cfg, COLD, acts);
            && Latched(s.db, run, action)
            && var plan := Create(s.db, s.host.state, s.now, p, q);
               plan.Commit? ==> q.id in plan.db.checks && plan.db.checks[q.id].state == Deny
  {
    Always(cfg, acts, n);
    hide Inv, Reached, CreateFault;
    LatchedIsDenied(Reached(cfg, COLD, acts).db, Reached(cfg, COLD, acts).host.state, Reached(cfg, COLD, acts).now, p,
                    q);
  }

  lemma LatchedIsDenied(db: Db, host: HostState, now: Counter, p: Principal, q: Request)
    requires q.CreateCheck? && Latched(db, q.run, q.intent.action)
    ensures var plan := Create(db, host, now, p, q);
            plan.Commit? ==> q.id in plan.db.checks && plan.db.checks[q.id].state == Deny
  {
    hide CreateFault, RowOf, PendingSlots, Jobs, RequiredMonitors, NextEvent;
  }

  // ---- jobs and results ----

  /** The same run, with no job ever handed out inside a request. */
  function Untaken(acts: seq<Action>): (r: seq<Action>)
    ensures |r| == |acts|
  {
    if acts == [] then [] else
      var a := acts[|acts| - 1];
      Untaken(acts[..|acts| - 1]) + [if a.Ask? then a.(taken := {}) else a]
  }

  /** Jobs are handed out under the request's own idempotency key, whose row is already there. */
  lemma AskTakesNothing(cfg: Config, s: Sys, a: Action)
    requires a.Ask?
    ensures Step(cfg, s, a) == Step(cfg, s, a.(taken := {}))
  {
    hide Handle, TurnedAway, TB.Admits, TB.After, AfterCreate;
    var plan := Handle(cfg, s.db, s.host, s.now, a.p, a.q);
    if plan.Commit? {
      var idem := ((a.p.id, a.rid), (a.q, plan.out));
      var d := plan.db.(idempotency := plan.db.idempotency[idem.0 := idem.1]);
      NestedOutboxRollsBack(d, a.q, idem, a.taken);
      NestedOutboxRollsBack(d, a.q, idem, {});
    }
  }

  /** Over any run, the jobs that requests hand out by themselves never leave the outbox. */
  lemma {:induction false} OutboxWaits(cfg: Config, s: Sys, acts: seq<Action>)
    ensures Reached(cfg, s, acts) == Reached(cfg, s, Untaken(acts))
  {
    hide Step;
    if acts != [] {
      var n := |acts| - 1;
      OutboxWaits(cfg, s, acts[..n]);
      assert Untaken(acts)[..n] == Untaken(acts[..n]);
      if acts[n].Ask? { AskTakesNothing(cfg, Reached(cfg, s, acts[..n]), acts[n]); }
    }
  }

  /** At every reachable point a finished slot of a monitor of the policy holds what recomputation from the committed
      policy and observation gives, whatever workers answered. */
  lemma ResultsAreRecomputed(cfg: Config, acts: seq<Action>)
    ensures var db := Reached(cfg, COLD, acts).db;
            forall id, m | id in db.checks && m in SlotsOf(db, id) && SlotsOf(db, id)[m].state == Done
                           && Recompute(db, db.checks[id], m).Some? ::
              SlotsOf(db, id)[m].result == Recompute(db, db.checks[id], m)
  {
    hide Reached, Extends, Inv, Recompute;
    Always(cfg, acts, |acts|);
    var db := Reached(cfg, COLD, acts).db;
    forall id, m | id in db.checks && m in SlotsOf(db, id) && SlotsOf(db, id)[m].state == Done
                   && Recompute(db, db.checks[id], m).Some?
      ensures SlotsOf(db, id)[m].result == Recompute(db, db.checks[id], m)
    {
      SlotIsRecomputed(db, id, m);
    }
  }

  lemma SlotIsRecomputed(db: Db, id: Id, m: Id)
    requires Inv(db) && id in db.checks && m in SlotsOf(db, id) && SlotsOf(db, id)[m].state == Done
    requires Recompute(db, db.checks[id], m).Some?
    ensures SlotsOf(db, id)[m].result == Recompute(db, db.checks[id], m)
  {
    hide Kept, PoliciesOk, RunsOk, StreamsOk, ReviewsOk, ClearsOk, Expected, EvaluatingOk;
    Keyed(db);
    var p := PolicyOf(db, db.checks[id].policy).value;
    var i :| 0 <= i < |p.monitors| && p.monitors[i] == FindMonitor(p.monitors, m).value;
    assert SlotsOk(db.policies, db.observations, db.slots, db.checks[id]);
    assert SlotOk(p.monitors[i], p, ByRef(db, db.checks[id].observation).value, db.checks[id], SlotsOf(db, id));
  }
}
