/** A rejection in review is for good: from the event that records it on, no check of the same action of the run is
    ever evaluated again. The argument follows the log: which steps write rejections, which start checks, and what the
    bindings of actions say about both. */
module Latch {
  import opened Basics
  import opened Ids
  import opened Records
  import opened Store
  import opened Detect
  import opened Protocol
  import opened Timers
  import opened Safety
  import opened Invariants
  import opened TimersKeep
  import opened System
  import opened Guarantees
  import opened Effects
  import opened Admission
  import opened Reviewing
  import D = DriftReducer
  import Queue
  import TB = TokenBucket

  // ---- steps that write neither a rejection nor a new check ----

  ghost predicate Plain(db: Db, next: Db) {
    && next.actions == db.actions && db.audit <= next.audit
    && forall i | |db.audit| <= i < |next.audit| :: next.audit[i].kind !in {ReviewRejected, CheckStarted}
  }

  lemma PlainSelf(db: Db, next: Db)
    requires next.audit == db.audit && next.actions == db.actions
    ensures Plain(db, next)
  {}

  lemma PlainThen(a: Db, b: Db, c: Db)
    requires Plain(a, b) && Plain(b, c)
    ensures Plain(a, c)
  {
    forall i | |a.audit| <= i < |c.audit| ensures c.audit[i].kind !in {ReviewRejected, CheckStarted} {
      if i < |b.audit| { assert c.audit[i] == b.audit[i]; }
    }
  }

  lemma PlainPut(db: Db, d: Db, now: nat, kind: Kind, s: Subject)
    requires kind !in {ReviewRejected, CheckStarted} && d.audit == db.audit && d.actions == db.actions
    ensures Plain(db, Put(d, now, kind, s))
  {
    hide Put;
    PutFrame(d, now, kind, s);
  }

  lemma {:induction false} FinishAllPlain(db: Db, now: nat, ids: seq<Id>, state: CheckState, why: string)
    requires HasChecks(db, ids)
    ensures Plain(db, FinishAll(db, now, ids, state, why))
    decreases |ids|
  {
    hide Put, Plain;
    if ids == [] {
      PlainSelf(db, db);
    } else {
      var c := Finish(db.checks[ids[0]], state, why);
      var d := Put(db, now, CheckFinalized, ACheck(c));
      PutFrame(db, now, CheckFinalized, ACheck(c));
      PlainPut(db, db, now, CheckFinalized, ACheck(c));
      FinishAllPlain(d, now, ids[1..], state, why);
      PlainThen(db, d, FinishAll(d, now, ids[1..], state, why));
    }
  }

  lemma {:induction false} ExpireAllPlain(db: Db, now: nat, ids: seq<Id>)
    requires HasReviews(db, ids)
    ensures Plain(db, ExpireAll(db, now, ids))
    decreases |ids|
  {
    hide Put, Plain;
    if ids == [] {
      PlainSelf(db, db);
    } else {
      var v := Expire(db.reviews[ids[0]]);
      var d := Put(db, now, ReviewExpired, AReview(v));
      PutFrame(db, now, ReviewExpired, AReview(v));
      PlainPut(db, db, now, ReviewExpired, AReview(v));
      ExpireAllPlain(d, now, ids[1..]);
      PlainThen(db, d, ExpireAll(d, now, ids[1..]));
    }
  }

  /** A run that halts with its checks, and one that takes its reviews along. */
  lemma HaltPlain(db: Db, now: nat, kind: Kind, r: Run, state: CheckState, why: string)
    requires kind !in {ReviewRejected, CheckStarted}
    ensures var d1 := Put(db, now, kind, ARun(r));
            var d2 := FinishAll(d1, now, EvaluatingIds(d1, Some(r.id)), state, why);
            Plain(db, d2) && Plain(db, ExpireReviews(d2, now, r.id))
  {
    hide Put, Plain, FinishAll, ExpireAll;
    var d1 := Put(db, now, kind, ARun(r));
    var d2 := FinishAll(d1, now, EvaluatingIds(d1, Some(r.id)), state, why);
    PlainPut(db, db, now, kind, ARun(r));
    FinishAllPlain(d1, now, EvaluatingIds(d1, Some(r.id)), state, why);
    PlainThen(db, d1, d2);
    ExpireAllPlain(d2, now, ActiveReviewIds(d2, Some(r.id)));
    PlainThen(db, d2, ExpireReviews(d2, now, r.id));
  }

  lemma {:induction false} ReplaceAllPlain(db: Db, now: nat, ids: seq<Id>)
    requires HasRuns(db, ids) && forall id | id in db.runs :: db.runs[id].id == id
    ensures Plain(db, ReplaceAll(db, now, ids))
    decreases |ids|
  {
    hide Put, Plain, FinishAll, ExpireAll;
    if ids == [] {
      PlainSelf(db, db);
    } else {
      var r := Halt(db.runs[ids[0]], Paused, "POLICY_REPLACED");
      var d := ExpireReviews(StaleChecks(Put(db, now, RunPaused, ARun(r)), now, ids[0]), now, ids[0]);
      PutFrame(db, now, RunPaused, ARun(r));
      HaltPlain(db, now, RunPaused, r, Stale, "STALE");
      ReplaceAllPlain(d, now, ids[1..]);
      PlainThen(db, d, ReplaceAll(d, now, ids[1..]));
    }
  }

  lemma {:induction false} PauseSilentPlain(db: Db, now: nat, ids: seq<Id>)
    requires HasRuns(db, ids) && forall id | id in db.runs :: db.runs[id].id == id
    ensures Plain(db, PauseSilent(db, now, ids))
    decreases |ids|
  {
    hide Put, Plain, FinishAll;
    if ids == [] {
      PlainSelf(db, db);
    } else if db.runs[ids[0]].state != Open {
      PauseSilentPlain(db, now, ids[1..]);
    } else {
      var r := Halt(db.runs[ids[0]], Paused, "SOURCE_SILENCE");
      var d := StaleChecks(Put(db, now, RunPaused, ARun(r)), now, ids[0]);
      PutFrame(db, now, RunPaused, ARun(r));
      HaltPlain(db, now, RunPaused, r, Stale, "STALE");
      PauseSilentPlain(d, now, ids[1..]);
      PlainThen(db, d, PauseSilent(d, now, ids[1..]));
    }
  }

  lemma {:induction false} ReleaseAllPlain(db: Db, now: nat, ids: seq<Id>)
    requires HasReviews(db, ids)
    ensures Plain(db, ReleaseAll(db, now, ids))
    decreases |ids|
  {
    hide Put, Plain, LeaseOver;
    if ids == [] {
      PlainSelf(db, db);
    } else if !LeaseOver(db.reviews[ids[0]], now) || now >= db.reviews[ids[0]].dueMs {
      ReleaseAllPlain(db, now, ids[1..]);
    } else {
      var v := Reopen(db.reviews[ids[0]]);
      var d := Put(db, now, ReviewReleased, AReview(v));
      PutFrame(db, now, ReviewReleased, AReview(v));
      PlainPut(db, db, now, ReviewReleased, AReview(v));
      ReleaseAllPlain(d, now, ids[1..]);
      PlainThen(db, d, ReleaseAll(d, now, ids[1..]));
    }
  }

  lemma {:induction false} WakeAllPlain(db: Db, now: nat, ids: seq<Id>)
    requires HasReviews(db, ids)
    ensures Plain(db, WakeAll(db, now, ids))
    decreases |ids|
  {
    hide Put, Plain, WakeOver;
    if ids == [] {
      PlainSelf(db, db);
    } else if !WakeOver(db.reviews[ids[0]], now) || now >= db.reviews[ids[0]].dueMs {
      WakeAllPlain(db, now, ids[1..]);
    } else {
      var v := Woken(db.reviews[ids[0]]);
      var d := Put(db, now, ReviewWoken, AReview(v));
      PutFrame(db, now, ReviewWoken, AReview(v));
      PlainPut(db, db, now, ReviewWoken, AReview(v));
      WakeAllPlain(d, now, ids[1..]);
      PlainThen(db, d, WakeAll(d, now, ids[1..]));
    }
  }

  lemma {:induction false} PauseAllPlain(db: Db, now: nat, ids: seq<Id>)
    requires HasRuns(db, ids)
    ensures Plain(db, PauseAll(db, now, ids))
    decreases |ids|
  {
    hide Put, Plain;
    if ids == [] {
      PlainSelf(db, db);
    } else {
      var r := Halt(db.runs[ids[0]], Paused, "RESTART");
      var d := Put(db, now, RunPaused, ARun(r));
      PutFrame(db, now, RunPaused, ARun(r));
      PlainPut(db, db, now, RunPaused, ARun(r));
      PauseAllPlain(d, now, ids[1..]);
      PlainThen(db, d, PauseAll(d, now, ids[1..]));
    }
  }

  lemma AttemptPlain(db: Db, now: nat, id: Id, start: nat)
    ensures Plain(db, Attempted(db, now, id, start))
  {
    hide Put, Plain, Missed, D.Next, PolicyIn;
    PlainSelf(db, db);
    if !(id !in db.runs || db.runs[id].state !in {Open, Paused} || RunPolicy(db, id).None?) {
      var r, p := db.runs[id], RunPolicy(db, id).value;
      var s := AWindow(id, start, Missed(db, r, p));
      var d := Put(Marked(db, id, start), now, TrailingEvaluated, s);
      PlainPut(db, Marked(db, id, start), now, TrailingEvaluated, s);
      var r2 := r.(drift := D.Next(r.drift, D.Slot(start, D.NoWindow), p), revision := r.revision + 1);
      PlainPut(d, d, now, DriftUpdated, ARun(r2));
      PlainThen(db, d, Put(d, now, DriftUpdated, ARun(r2)));
    }
  }

  lemma {:induction false} AttemptAllPlain(db: Db, now: nat, id: Id, starts: seq<nat>)
    ensures Plain(db, AttemptAll(db, now, id, starts))
    decreases |starts|
  {
    hide Attempted, Plain;
    if starts == [] {
      PlainSelf(db, db);
    } else {
      var d := Attempted(db, now, id, starts[0]);
      AttemptPlain(db, now, id, starts[0]);
      AttemptAllPlain(d, now, id, starts[1..]);
      PlainThen(db, d, AttemptAll(d, now, id, starts[1..]));
    }
  }

  lemma TwoPuts(db: Db, now: nat, k: Kind, s: Subject, l: Kind, t: Subject)
    requires k !in {ReviewRejected, CheckStarted} && l !in {ReviewRejected, CheckStarted}
    ensures Plain(db, Put(Put(db, now, k, s), now, l, t))
  {
    hide Put, Plain;
    PlainPut(db, db, now, k, s);
    PlainPut(Put(db, now, k, s), Put(db, now, k, s), now, l, t);
    PlainThen(db, Put(db, now, k, s), Put(Put(db, now, k, s), now, l, t));
  }

  lemma FinalizePlain(db: Db, now: nat, id: Id)
    ensures Plain(db, MaybeFinalize(db, now, id))
  {
    hide Put, Plain, OutOfDate, Decide, Consumable, SettledResults, SlotVector, NewClearance, NewReview, PolicyIn,
         RefIn,
         ActiveWithBasis, ReadyToFinalize, Finish, CandidateBasis;
    PlainSelf(db, db);
    forall c: Check ensures Plain(db, Put(db, now, CheckFinalized, ACheck(c))) {
      PlainPut(db, db, now, CheckFinalized, ACheck(c));
    }
    forall c: Check, v: Review
      ensures Plain(db, Put(Put(db, now, CheckFinalized, ACheck(c)), now, ReviewOpened, AReview(v)))
      ensures Plain(db, Put(Put(db, now, ReviewConsumed, AReview(v)), now, CheckFinalized, ACheck(c)))
    {
      TwoPuts(db, now, CheckFinalized, ACheck(c), ReviewOpened, AReview(v));
      TwoPuts(db, now, ReviewConsumed, AReview(v), CheckFinalized, ACheck(c));
    }
  }

  lemma StorePlain(db: Db, host: HostState, epoch: nat, now: nat, k: Completion)
    ensures Plain(db, StoreReply(db, host, epoch, now, k).0)
  {
    hide Put, Plain, Recompute, SlotsOf;
    PlainSelf(db, db);
    PlainPut(db, db, now, HostFaulted, AHost(Host(Faulted, epoch)));
    forall c, m, s ensures Plain(db, SetSlot(db, c, m, s)) { PlainSelf(db, SetSlot(db, c, m, s)); }
  }

  lemma RestartPlain(s: Sys, parts: nat, least: nat)
    ensures Plain(s.db, Restart(s, parts, least).db)
  {
    hide Put, Plain, PauseAll, ExpireAll, FinishAll;
    var d0 := s.db.(hostEpoch := s.db.hostEpoch + 1);
    var d1 := Begun(s.db, s.now);
    PlainSelf(s.db, s.db);
    PlainPut(s.db, d0, s.now, HostStarted, AHost(Host(Starting, s.db.hostEpoch + 1)));
    PlainPut(d1, d1, s.now, HostFaulted, AHost(Host(Faulted, d1.hostEpoch)));
    PlainThen(s.db, d1, Behind(d1, s.now));
    var d2 := PauseAll(d1, s.now, OpenRunIds(d1));
    var d3 := ExpireAll(d2, s.now, ActiveReviewIds(d2, None));
    var d4 := FinishAll(d3, s.now, EvaluatingIds(d3, None), CExpired, "RESTART");
    PauseAllPlain(d1, s.now, OpenRunIds(d1));
    ExpireAllPlain(d2, s.now, ActiveReviewIds(d2, None));
    FinishAllPlain(d3, s.now, EvaluatingIds(d3, None), CExpired, "RESTART");
    PlainThen(s.db, d1, d2);
    PlainThen(s.db, d2, d3);
    PlainThen(s.db, d3, d4);
    PlainPut(d4, d4, s.now, HostReady, AHost(Host(Ready, d4.hostEpoch)));
    PlainThen(s.db, d4, Readied(d4, s.now));
  }

  // ---- what requests write ----

  lemma HaltsPlain(db: Db, host: HostState, now: nat, r: Run, c: Code)
    ensures Plain(db, PauseSource(db, host, now, r, c).db) && Plain(db, Quarantine(db, host, now, r, c).db)
  {
    hide Put, Plain, FinishAll, ExpireAll;
    HaltPlain(db, now, RunPaused, Halt(r, Paused, CodeName(c)), Stale, "STALE");
    HaltPlain(db, now, RunQuarantined, Halt(r, Quarantined, CodeName(c)), Stale, "STALE");
  }

  lemma AcceptPlain(db: Db, now: Counter, r: Run, o: Observation)
    ensures Plain(db, Accept(db, now, r, o))
  {
    hide Put, Plain;
    var w := o.snapshot.window;
    var key := (r.id, if w.Some? then w.value.startMs as nat else 0);
    var d := db.(observations := db.observations[r.id := ObservationsOf(db, r.id) + [o]],
                 windows := if w.Some? && key !in db.windows then db.windows[key := Some(w.value.counts)]
                     else db.windows);
    PlainPut(db, d, now, ObservationAccepted, ARun(Advanced(r, now, o)));
  }

  lemma ObservePlain(cfg: Config, db: Db, host: HostState, now: Counter, p: Principal, so: Signed<Observation>)
    ensures Observe(cfg, db, host, now, p, so).Commit? ==> Plain(db, Observe(cfg, db, host, now, p, so).db)
  {
    hide Plain, RefIn, Admissible, Accept, Quarantine, PauseSource;
    if so.body.run in db.runs {
      var r := db.runs[so.body.run];
      HaltsPlain(db, host, now, r, SourceFork);
      HaltsPlain(db, host, now, r, SourceGap);
      if Admissible(db, now, r, so.body).Isolate? {
        HaltsPlain(db, host, now, r, Admissible(db, now, r, so.body).code);
      }
      AcceptPlain(db, now, r, so.body);
    }
  }

  lemma ActivatePlain(cfg: Config, db: Db, host: HostState, now: nat, sp: Signed<Policy>, expected: Counter)
    requires (forall id | id in db.runs :: db.runs[id].id == id) && Activate(cfg, db, host, now, sp, expected).Commit?
    ensures Plain(db, Activate(cfg, db, host, now, sp, expected).db)
  {
    hide Put, Plain, Activate, ReplaceAll;
    var d1 := db.(policies := db.policies + [sp.body]);
    var d := Put(d1, now, PolicyActivated, APolicy(sp.body));
    Effects.ActivatePlan(cfg, db, host, now, sp, expected);
    PutFrame(d1, now, PolicyActivated, APolicy(sp.body));
    PlainPut(db, d1, now, PolicyActivated, APolicy(sp.body));
    ReplaceAllPlain(d, now, OpenRunIds(d));
    PlainThen(db, d, ReplaceAll(d, now, OpenRunIds(d)));
  }

  lemma ControlPlain(db: Db, host: HostState, now: Counter, p: Principal, id: Id, expected: nat, a: RunAction,
                     why: string)
    requires forall id | id in db.runs :: db.runs[id].id == id
    ensures var plan := Control(db, host, now, p, id, expected, a, why); plan.Commit? ==> Plain(db, plan.db)
  {
    hide Put, Plain, FinishAll, ExpireAll, ResumeFault;
    if id in db.runs {
      var r := db.runs[id];
      HaltPlain(db, now, RunPaused, Halt(r, Paused, why), Stale, "STALE");
      HaltPlain(db, now, RunClosed, Halt(r, Closed, why), Cancelled, "CANCELLED");
      PlainPut(db, db, now, RunResumed, ARun(r.(state := Open, pauseReason := None, revision := r.revision + 1)));
    }
  }

  lemma ClaimPlain(db: Db, host: HostState, now: Counter, p: Principal, v: Review, expected: Option<nat>)
    ensures var plan := ClaimThis(db, host, now, p, v, expected); plan.Commit? ==> Plain(db, plan.db)
  {
    hide Put, Plain, PolicyIn, ClaimedBy, Expire;
    PlainPut(db, db, now, ReviewExpired, AReview(Expire(v)));
    forall w: Review ensures Plain(db, Served(Put(db, now, ReviewClaimed, AReview(w)), v)) {
      var d := Put(db, now, ReviewClaimed, AReview(w));
      PlainPut(db, db, now, ReviewClaimed, AReview(w));
      PlainSelf(d, Served(d, v));
      PlainThen(db, d, Served(d, v));
    }
  }

  lemma DrainPlain(db: Db, host: Host, now: nat)
    ensures Drain(db, host, now).Commit? ==> Plain(db, Drain(db, host, now).db)
  {
    hide Put, Plain, FinishAll;
    var d := Put(db, now, HostDraining, AHost(host.(state := Draining)));
    PlainPut(db, db, now, HostDraining, AHost(host.(state := Draining)));
    FinishAllPlain(d, now, EvaluatingIds(d, None), CExpired, "DRAIN");
    PlainThen(db, d, FinishAll(d, now, EvaluatingIds(d, None), CExpired, "DRAIN"));
  }

  lemma StartPlain(cfg: Config, db: Db, host: HostState, now: nat, p: Principal, q: Request)
    requires q.OpenRun?
    ensures Start(cfg, db, host, now, p, q).Commit? ==> Plain(db, Start(cfg, db, host, now, p, q).db)
  {
    hide Put, Plain;
    forall r: Run ensures Plain(db, Put(db, now, RunOpened, ARun(r))) { PlainPut(db, db, now, RunOpened, ARun(r)); }
  }

  lemma CancelPlain(db: Db, host: HostState, now: nat, p: Principal, id: Id, expected: nat)
    ensures Cancel(db, host, now, p, id, expected).Commit? ==> Plain(db, Cancel(db, host, now, p, id, expected).db)
  {
    hide Put, Plain;
    if id in db.checks {
      PlainPut(db, db, now, CheckFinalized, ACheck(Finish(db.checks[id], Cancelled, "CANCELLED")));
    }
  }

  lemma HandlePlain(cfg: Config, db: Db, host: Host, now: Counter, p: Principal, q: Request)
    requires !q.CreateCheck? && !q.ResolveReview? && forall id | id in db.runs :: db.runs[id].id == id
    ensures Handle(cfg, db, host, now, p, q).Commit? ==> Plain(db, Handle(cfg, db, host, now, p, q).db)
  {
    hide Plain, Drain, Activate, Start, Control, Observe, Cancel, ClaimThis, Found;
    match q
    case DrainHost => DrainPlain(db, host, now);
    case ActivatePolicy(sp, e) =>
      if Activate(cfg, db, host.state, now, sp, e).Commit? { ActivatePlain(cfg, db, host.state, now, sp, e); }
    case OpenRun(_, _, _, _, _, _, _, _) => StartPlain(cfg, db, host.state, now, p, q);
    case ControlRun(id, e, a, why) => ControlPlain(db, host.state, now, p, id, e, a, why);
    case Append(so) => ObservePlain(cfg, db, host.state, now, p, so);
    case CancelCheck(id, e) => CancelPlain(db, host.state, now, p, id, e);
    case ClaimReview(named, e) =>
      if Found(db, named).Some? { ClaimPlain(db, host.state, now, p, Found(db, named).value, e); }
  }

  // ---- rejections and bindings ----

  /** Every check's action is bound to its intent. */
  ghost predicate AllBound(checks: map<Id, Check>, actions: map<(Id, Id), Binding>) {
    forall id | id in checks ::
      (checks[id].run, checks[id].intent.action) in actions
      && actions[(checks[id].run, checks[id].intent.action)].intent == OfIntent(checks[id].intent)
  }

  /** Event i rejects, in review, an action of a run. */
  ghost predicate RejectsAt(audit: seq<Event>, checks: map<Id, Check>, i: nat, run: Id, action: Id)
    requires i < |audit|
  {
    && audit[i].kind == ReviewRejected && audit[i].value.AReview?
    && var v := audit[i].value.review;
       && v.kind == Blocking && v.run == run && v.check.Some? && v.check.value in checks
       && checks[v.check.value].intent.action == action
  }

  /** Event j creates a check of an action of a run. */
  ghost predicate CreatesAt(audit: seq<Event>, j: nat, run: Id, action: Id)
    requires j < |audit|
  {
    && audit[j].kind == CheckStarted && audit[j].value.ACheck?
    && audit[j].value.check.run == run && audit[j].value.check.intent.action == action
  }

  ghost predicate DeniedCheck(checks: map<Id, Check>, id: Id) {
    id in checks && checks[id].state == Deny && checks[id].reason == "REVIEW_REJECTED"
  }

  ghost predicate AllLatched(db: Db) {
    forall i: nat, run, action | i < |db.audit| && RejectsAt(db.audit, db.checks, i, run, action) ::
      RejectedFor(db, run, action)
  }

  ghost predicate AllDenied(db: Db) {
    forall i: nat, j: nat, run, action | i < j < |db.audit| && RejectsAt(db.audit, db.checks, i, run, action)
                                         && CreatesAt(db.audit, j, run, action) ::
      DeniedCheck(db.checks, db.audit[j].value.check.id)
  }

  ghost predicate Latches(db: Db) { AllBound(db.checks, db.actions) && AllLatched(db) && AllDenied(db) }

  /** What the log grows by leaves checks what they are. */
  ghost predicate ChecksStay(checks: map<Id, Check>, later: map<Id, Check>) {
    forall id | id in checks ::
      && id in later && later[id].run == checks[id].run && later[id].intent == checks[id].intent
      && (Terminal(checks[id].state) ==> later[id] == checks[id])
  }

  lemma GrowthMeans(db: Db, next: Db)
    requires Kept(db) && Kept(next) && db.audit <= next.audit
    ensures ChecksStay(db.checks, next.checks)
  {
    hide Lawful, Chained;
    assert next.audit[..|db.audit|] == db.audit;
    LifecyclesHold(next.audit, |db.audit|);
  }

  /** Every rejection is of a review of some check of its run. */
  lemma {:induction false} ReviewsHaveChecks(audit: seq<Event>)
    requires Lawful(audit)
    ensures forall id | id in ReviewsOf(audit) :: OpenedFor(ChecksOf(audit), ReviewsOf(audit)[id])
  {
    if audit != [] {
      var n := |audit| - 1;
      PrefixLawful(audit, n);
      ReviewsHaveChecks(audit[..n]);
      assert LegalAt(audit, n);
      assert audit == audit[..n] + [audit[n]];
      ReplayGrows(audit[..n], audit[n]);
    }
  }

  /** Without a new check started, no check is new. */
  lemma NoNewChecks(db: Db, next: Db)
    requires Kept(db) && Kept(next) && Plain(db, next)
    ensures next.checks.Keys <= db.checks.Keys
  {
    NoneStarted(next.audit, |db.audit|);
    assert next.audit[..|db.audit|] == db.audit;
  }

  lemma {:induction false} NoneStarted(audit: seq<Event>, n: nat)
    requires Lawful(audit) && n <= |audit| && forall i | n <= i < |audit| :: audit[i].kind != CheckStarted
    ensures ChecksOf(audit).Keys <= ChecksOf(audit[..n]).Keys
    decreases |audit|
  {
    if n < |audit| {
      var m := |audit| - 1;
      PrefixLawful(audit, m);
      NoneStarted(audit[..m], n);
      assert audit[..m][..n] == audit[..n];
      assert LegalAt(audit, m);
      assert audit == audit[..m] + [audit[m]];
      ReplayGrows(audit[..m], audit[m]);
    } else {
      assert audit[..n] == audit;
    }
  }

  /** The review an event is about is that of a check of its run. */
  lemma EventHasCheck(audit: seq<Event>, i: nat)
    requires Lawful(audit) && i < |audit| && audit[i].value.AReview?
    ensures OpenedFor(ChecksOf(audit), audit[i].value.review)
  {
    hide LegalAt;
    var v := audit[i].value.review;
    PrefixLawful(audit, i + 1);
    ReviewsHaveChecks(audit[..i + 1]);
    assert audit[..i + 1] == audit[..i] + [audit[i]];
    ReplayGrows(audit[..i], audit[i]);
    assert v.id in ReviewsOf(audit[..i + 1]) && ReviewsOf(audit[..i + 1])[v.id] == v;
    LifecyclesHold(audit, i + 1);
  }

  // ---- every step ----

  lemma SameRejection(db: Db, next: Db, i: nat, run: Id, action: Id)
    requires Kept(db) && Kept(next) && db.audit <= next.audit && i < |db.audit|
    requires RejectsAt(next.audit, next.checks, i, run, action)
    ensures RejectsAt(db.audit, db.checks, i, run, action)
  {
    hide Lawful, Chained;
    assert db.audit[i] == next.audit[i];
    EventHasCheck(db.audit, i);
    GrowthMeans(db, next);
  }

  lemma DeniedStays(db: Db, next: Db, id: Id)
    requires ChecksStay(db.checks, next.checks) && DeniedCheck(db.checks, id)
    ensures DeniedCheck(next.checks, id)
  {}

  ghost predicate NoneNew(audit: seq<Event>, n: nat, kind: Kind) {
    forall i | n <= i < |audit| :: audit[i].kind != kind
  }

  /** Checks started for a rejected action are denied. */
  ghost predicate StartsDenied(db: Db, next: Db) {
    forall j | |db.audit| <= j < |next.audit| && next.audit[j].kind == CheckStarted && next.audit[j].value.ACheck? ::
      var c := next.audit[j].value.check; RejectedFor(db, c.run, c.intent.action) ==> DeniedCheck(next.checks, c.id)
  }

  lemma NothingRejected(audit: seq<Event>, checks: map<Id, Check>, n: nat)
    requires NoneNew(audit, n, ReviewRejected)
    ensures forall i: nat, run, action | n <= i < |audit| :: !RejectsAt(audit, checks, i, run, action)
  {}

  /** A step keeps the latch if rejections stand, what it rejects is latched, and what it starts under one is denied. */
  lemma StepLatches(db: Db, next: Db)
    requires Latches(db) && Kept(db) && Kept(next) && db.audit <= next.audit && AllBound(next.checks, next.actions)
    requires forall k | k in db.actions && db.actions[k].rejected :: k in next.actions && next.actions[k].rejected
    requires forall i: nat, run, action | |db.audit| <= i < |next.audit|
                                          && RejectsAt(next.audit, next.checks, i, run, action) ::
               RejectedFor(next, run, action)
    requires NoneNew(next.audit, |db.audit|, ReviewRejected) || NoneNew(next.audit, |db.audit|, CheckStarted)
    requires StartsDenied(db, next)
    ensures Latches(next)
  {
    hide Kept, RejectsAt, CreatesAt, DeniedCheck, AllBound;
    GrowthMeans(db, next);
    forall i: nat, run, action | i < |db.audit| && RejectsAt(next.audit, next.checks, i, run, action)
      ensures RejectsAt(db.audit, db.checks, i, run, action)
    {
      SameRejection(db, next, i, run, action);
    }
    forall i: nat, j: nat, run, action | i < j < |next.audit| && RejectsAt(next.audit, next.checks, i, run, action)
                                         && CreatesAt(next.audit, j, run, action)
      ensures next.audit[j].value.ACheck? && DeniedCheck(next.checks, next.audit[j].value.check.id)
    {
      RejectsMeans(next.audit, next.checks, i, run, action);
      CreatesMeans(next.audit, j, run, action);
      if j < |db.audit| {
        SameCreation(db.audit, next.audit, j, run, action);
        DeniedStays(db, next, next.audit[j].value.check.id);
      }
    }
  }

  lemma PlainLatches(db: Db, next: Db)
    requires Latches(db) && Kept(db) && Kept(next) && Plain(db, next)
    ensures Latches(next)
  {
    hide Kept, RejectsAt, DeniedCheck;
    NoNewChecks(db, next);
    GrowthMeans(db, next);
    NothingRejected(next.audit, next.checks, |db.audit|);
    hide AllLatched, AllDenied;
    StepLatches(db, next);
  }

  lemma RejectsMeans(audit: seq<Event>, checks: map<Id, Check>, i: nat, run: Id, action: Id)
    requires i < |audit| && RejectsAt(audit, checks, i, run, action)
    ensures audit[i].kind == ReviewRejected && audit[i].value.AReview?
  {}

  lemma CreatesMeans(audit: seq<Event>, j: nat, run: Id, action: Id)
    requires j < |audit| && CreatesAt(audit, j, run, action)
    ensures audit[j].kind == CheckStarted && audit[j].value.ACheck?
    ensures audit[j].value.check.run == run && audit[j].value.check.intent.action == action
  {}

  lemma SameCreation(audit: seq<Event>, next: seq<Event>, j: nat, run: Id, action: Id)
    requires j < |audit| && audit <= next && CreatesAt(next, j, run, action)
    ensures CreatesAt(audit, j, run, action) && next[j] == audit[j]
  {}

  /** The log after a check is created: its start, and nothing that is a rejection. */
  lemma CreateWrites(db: Db, host: HostState, now: Counter, p: Principal, q: Request)
    requires q.CreateCheck? && Create(db, host, now, p, q).Commit?
    ensures var a := Create(db, host, now, p, q).db.audit;
            && db.audit < a && a[|db.audit|].value.ACheck? && a[|db.audit|].value.check.id == q.id
            && a[|db.audit|].value.check.run == q.run && a[|db.audit|].value.check.intent == q.intent
            && (forall i | |db.audit| <= i < |a| :: a[i].kind != ReviewRejected)
            && (forall i | |db.audit| < i < |a| :: a[i].kind != CheckStarted)
  {
    hide Put, Create, RequiredMonitors, Finish, Registered, NextEvent;
    CreatePlan(db, host, now, p, q);
    var pol, no := db.policies[|db.policies| - 1], RejectedFor(db, q.run, q.intent.action);
    var c := Check(q.id, 1, q.run, q.intent, q.ref, OfPolicy(pol), Evaluating, now, now + pol.evaluationMs, [],
                   q.review, None, "PENDING");
    var d1, ms := Put(db, now, CheckStarted, ACheck(c)), RequiredMonitors(pol.monitors);
    var d, f := Registered(d1, q, ms, now, no), ACheck(Finish(c, Deny, "REVIEW_REJECTED"));
    PutFrame(db, now, CheckStarted, ACheck(c));
    RegisteredAudit(d1, q, ms, now, no);
    PutFrame(d, now, CheckFinalized, f);
    NextEventIs(db.audit, now, CheckStarted, ACheck(c));
    NextEventIs(d.audit, now, CheckFinalized, f);
    StartedLog(db.audit, Create(db, host, now, p, q).db.audit, NextEvent(db.audit, now, CheckStarted, ACheck(c)),
               NextEvent(d.audit, now, CheckFinalized, f));
  }

  lemma StartedLog(audit: seq<Event>, a: seq<Event>, e: Event, f: Event)
    requires a == audit + [e] || a == audit + [e] + [f]
    requires e.kind == CheckStarted && f.kind == CheckFinalized
    ensures audit < a && a[|audit|] == e
    ensures forall i | |audit| <= i < |a| :: a[i].kind != ReviewRejected
    ensures forall i | |audit| < i < |a| :: a[i].kind != CheckStarted
  {}

  lemma RegisteredAudit(db: Db, q: Request, ms: seq<Monitor>, now: nat, latched: bool)
    requires q.CreateCheck?
    ensures Registered(db, q, ms, now, latched).audit == db.audit
  {}

  lemma CreateLatches(db: Db, host: HostState, now: Counter, p: Principal, q: Request)
    requires Inv(db) && Latches(db) && q.CreateCheck? && Create(db, host, now, p, q).Commit?
    requires Kept(Create(db, host, now, p, q).db)
    ensures Latches(Create(db, host, now, p, q).db)
  {
    hide Create, CreateFault, Kept, Inv, RejectsAt, DeniedCheck, Creates, AllLatched, AllDenied, AllBound, Latched;
    var next, no := Create(db, host, now, p, q).db, RejectedFor(db, q.run, q.intent.action);
    InvIsKept(db);
    CreateWrites(db, host, now, p, q);
    CreatedRows(db, host, now, p, q);
    NothingRejected(next.audit, next.checks, |db.audit|);
    StepLatches(db, next);
  }

  /** The tables after a check is created, as far as the latch goes. */
  lemma CreatedRows(db: Db, host: HostState, now: Counter, p: Principal, q: Request)
    requires Inv(db) && Latches(db) && q.CreateCheck? && Create(db, host, now, p, q).Commit?
    ensures var next := Create(db, host, now, p, q).db;
            && AllBound(next.checks, next.actions)
            && (RejectedFor(db, q.run, q.intent.action) ==> DeniedCheck(next.checks, q.id))
            && (forall k | k in db.actions && db.actions[k].rejected :: k in next.actions && next.actions[k].rejected)
  {
    hide Create, CreateFault, Kept, Inv, SlotsWait, JobsFor, KeepsRest, AllLatched, AllDenied, Latched, AllBound;
    var next, no := Create(db, host, now, p, q).db, RejectedFor(db, q.run, q.intent.action);
    CreateDoes(db, host, now, p, q);
    CreateIsUnbound(db, host, now, p, q);
    BoundGrows(db, next, q, no);
  }

  lemma CreateIsUnbound(db: Db, host: HostState, now: Counter, p: Principal, q: Request)
    requires q.CreateCheck? && Create(db, host, now, p, q).Commit?
    ensures Unbound(db, q)
  {
    hide Put, RequiredMonitors, Registered, Finish, Covers, SpendTotal, RefIn;
  }

  lemma BoundGrows(db: Db, next: Db, q: Request, no: bool)
    requires q.CreateCheck? && AllBound(db.checks, db.actions) && next.checks.Keys == db.checks.Keys + {q.id}
    requires forall id | id in db.checks && id != q.id :: next.checks[id] == db.checks[id]
    requires next.checks[q.id].run == q.run && next.checks[q.id].intent == q.intent
    requires next.actions == db.actions[(q.run, q.intent.action) := Binding(OfIntent(q.intent), no)]
    requires Unbound(db, q)
    ensures AllBound(next.checks, next.actions)
  {}

  lemma InvIsKept(db: Db)
    requires Inv(db)
    ensures Kept(db)
  {
    hide Kept, PoliciesOk, RunsOk, StreamsOk, ChecksOk, ReviewsOk, ClearsOk;
  }

  /** A decision writes nothing that rejects or starts anything, or it writes one rejection of the review it is
      about. */
  lemma ResolveWrites(db: Db, host: HostState, now: Counter, p: Principal, q: Request)
    requires q.ResolveReview? && Resolve(db, host, now, p, q).Commit?
    ensures var next := Resolve(db, host, now, p, q).db;
            || Plain(db, next)
            || (q.resolution == Reject && q.id in db.reviews && RejectionOf(db, next, db.reviews[q.id]))
  {
    hide Put, Plain, PolicyIn, ReviewStateName, LatchRejected, RejectionOf;
    var v := db.reviews[q.id];
    PlainPut(db, db, now, ReviewExpired, AReview(Expire(v)));
    PlainPut(db, db, now, ReviewReleased, AReview(Reopen(v)));
    forall w: Review ensures q.resolution != Reject ==>
                Plain(db, LatchRejected(Put(db, now, ResolveKind(q.resolution), AReview(w)), v, q.resolution))
    {
      if q.resolution != Reject { DecidedPlain(db, now, q.resolution, v, w); }
    }
    forall w: Review | w.run == v.run && w.check == v.check && w.kind == v.kind && v.kind == Blocking
      ensures RejectionOf(db, LatchRejected(Put(db, now, ReviewRejected, AReview(w)), v, Reject), v)
    {
      RejectionWritten(db, now, v, w);
    }
  }

  /** The one event is the rejection of v, and the action of v's check is marked. */
  ghost predicate RejectionOf(db: Db, next: Db, v: Review) {
    && |next.audit| == |db.audit| + 1 && db.audit <= next.audit
    && next.audit[|db.audit|].kind == ReviewRejected && next.audit[|db.audit|].value.AReview?
    && (var w := next.audit[|db.audit|].value.review;
        w.run == v.run && w.check == v.check && w.kind == v.kind)
    && v.kind == Blocking && next.checks == db.checks && Binds(db, next, v, true)
  }

  lemma DecidedPlain(db: Db, now: nat, a: ReviewAction, v: Review, w: Review)
    requires a != Reject
    ensures Plain(db, LatchRejected(Put(db, now, ResolveKind(a), AReview(w)), v, a))
  {
    hide Put;
    PlainPut(db, db, now, ResolveKind(a), AReview(w));
  }

  lemma RejectionWritten(db: Db, now: nat, v: Review, w: Review)
    requires w.run == v.run && w.check == v.check && w.kind == v.kind && v.kind == Blocking
    ensures RejectionOf(db, LatchRejected(Put(db, now, ReviewRejected, AReview(w)), v, Reject), v)
  {
    hide Put, LatchRejected, NextEvent, Binds;
    var d := Put(db, now, ReviewRejected, AReview(w));
    PutFrame(db, now, ReviewRejected, AReview(w));
    NextEventIs(db.audit, now, ReviewRejected, AReview(w));
    LatchBinds(db, d, v, Reject);
  }

  /** What a rejection leaves of the bindings: all of them, and its own action marked. */
  lemma RejectionBinds(db: Db, next: Db, v: Review)
    requires AllBound(db.checks, db.actions) && RejectionOf(db, next, v) && OpenedFor(db.checks, v)
    ensures var key := (v.run, db.checks[v.check.value].intent.action);
            key in db.actions && next.actions == db.actions[key := Binding(db.actions[key].intent, true)]
    ensures AllBound(next.checks, next.actions)
    ensures forall i: nat, run, action | |db.audit| <= i < |next.audit|
                                         && RejectsAt(next.audit, next.checks, i, run, action) ::
              RejectedFor(next, run, action)
  {}

  lemma RejectionLatchesNow(db: Db, next: Db, v: Review)
    requires Latches(db) && Kept(db) && Kept(next) && RejectionOf(db, next, v)
    ensures Latches(next)
  {
    hide Kept, DeniedCheck, RejectsAt, AllLatched, AllDenied, AllBound;
    ReplayedChecks(next);
    EventHasCheck(next.audit, |db.audit|);
    RejectionBinds(db, next, v);
    StepLatches(db, next);
  }

  lemma ReplayedChecks(db: Db)
    requires Kept(db)
    ensures db.checks == ChecksOf(db.audit) && Lawful(db.audit)
  {
    hide Lawful, Chained;
  }

  lemma ResolveLatches(db: Db, host: HostState, now: Counter, p: Principal, q: Request)
    requires Kept(db) && Latches(db) && q.ResolveReview? && Resolve(db, host, now, p, q).Commit?
    requires Kept(Resolve(db, host, now, p, q).db)
    ensures Latches(Resolve(db, host, now, p, q).db)
  {
    hide Kept, Latches, Resolve, Plain, RejectionOf;
    var next := Resolve(db, host, now, p, q).db;
    ResolveWrites(db, host, now, p, q);
    if Plain(db, next) { PlainLatches(db, next); } else { RejectionLatchesNow(db, next, db.reviews[q.id]); }
  }

  lemma HandleLatches(cfg: Config, db: Db, host: Host, now: Counter, p: Principal, q: Request)
    requires Inv(db) && Latches(db) && Handle(cfg, db, host, now, p, q).Commit?
    ensures Latches(Handle(cfg, db, host, now, p, q).db)
  {
    hide Inv, Latches, Plain, Create, Resolve, Kept;
    var plan := Handle(cfg, db, host, now, p, q);
    InvIsKept(db);
    HandleKeeps(cfg, db, host, now, p, q);
    SafeIsKept(db, plan.db);
    if q.CreateCheck? {
      HandleCreate(cfg, db, host, now, p, q);
      CreateLatches(db, host.state, now, p, q);
    } else if q.ResolveReview? {
      HandleResolve(cfg, db, host, now, p, q);
      ResolveLatches(db, host.state, now, p, q);
    } else {
      Keyed(db);
      HandlePlain(cfg, db, host, now, p, q);
      PlainLatches(db, plan.db);
    }
  }

  lemma SafeIsKept(db: Db, next: Db)
    requires Safe(db, next)
    ensures Kept(next)
  {
    hide Kept, PoliciesOk, RunsOk, StreamsOk, ChecksOk, ReviewsOk, ClearsOk, Extends;
  }

  lemma HandleCreate(cfg: Config, db: Db, host: Host, now: Counter, p: Principal, q: Request)
    requires q.CreateCheck?
    ensures Handle(cfg, db, host, now, p, q) == Create(db, host.state, now, p, q)
  {
    hide Create;
  }

  lemma HandleResolve(cfg: Config, db: Db, host: Host, now: Counter, p: Principal, q: Request)
    requires q.ResolveReview?
    ensures Handle(cfg, db, host, now, p, q) == Resolve(db, host.state, now, p, q)
  {
    hide Resolve;
  }

  lemma SameLatches(db: Db, next: Db)
    requires Latches(db) && next.audit == db.audit && next.checks == db.checks && next.actions == db.actions
    ensures Latches(next)
  {
    hide RejectsAt, CreatesAt, DeniedCheck, AllBound;
  }

  lemma AskLatches(cfg: Config, s: Sys, a: Action)
    requires Inv(s.db) && Latches(s.db) && a.Ask?
    ensures Latches(Step(cfg, s, a).db)
  {
    hide Inv, Latches, Handle, RoleAllowed, TB.Admits, TB.After, AfterCreate;
    var plan := Handle(cfg, s.db, s.host, s.now, a.p, a.q);
    if plan.Commit? {
      HandlersLeaveRows(cfg, s.db, s.host, s.now, a.p, a.q);
      HandleLatches(cfg, s.db, s.host, s.now, a.p, a.q);
      var key := (a.p.id, a.rid);
      var d := plan.db.(idempotency := plan.db.idempotency[key := (a.q, plan.out)]);
      NestedOutboxRollsBack(d, a.q, (key, (a.q, plan.out)), a.taken);
      SameLatches(plan.db, d);
    }
  }

  lemma TimersPlain(db: Db, now: nat)
    requires Inv(db)
    ensures Plain(db, TickSilence(db, now)) && Plain(db, TickDue(db, now))
    ensures Plain(db, TickLease(db, now)) && Plain(db, TickWake(db, now))
  {
    hide Inv, Plain, PauseSilent, ExpireAll, ReleaseAll, WakeAll;
    InvIsKeyed(db);
    PauseSilentPlain(db, now, SilentRuns(db, now));
    ExpireAllPlain(db, now, DueReviews(db, now));
    ReleaseAllPlain(db, now, LeaseIds(db, now));
    WakeAllPlain(db, now, WakeIds(db, now));
  }

  lemma ReplyPlain(db: Db, host: HostState, epoch: nat, now: nat, k: Completion)
    ensures Plain(db, ApplyReply(db, host, epoch, now, k).0)
  {
    hide Plain, StoreReply, MaybeFinalize;
    var d := StoreReply(db, host, epoch, now, k).0;
    StorePlain(db, host, epoch, now, k);
    FinalizePlain(d, now, k.check);
    PlainThen(db, d, MaybeFinalize(d, now, k.check));
  }

  lemma OtherPlain(cfg: Config, s: Sys, a: Action)
    requires Inv(s.db) && !a.Ask?
    ensures Plain(s.db, Step(cfg, s, a).db)
  {
    hide Inv, Plain, Restart, TickSilence, TickDue, TickLease, TickWake, MaybeFinalize, StoreReply, ApplyReply,
         AttemptAll, TickOutbox;
    PlainSelf(s.db, s.db);
    match a
    case Boot(parts, least) => RestartPlain(s, parts, least);
    case FinalizeOne(c) => FinalizePlain(s.db, s.now, c);
    case Stored(k) => StorePlain(s.db, s.host.state, s.host.epoch, s.now, k);
    case MonitorReply(k) => ReplyPlain(s.db, s.host.state, s.host.epoch, s.now, k);
    case Windows(run) =>
      AttemptAllPlain(s.db, s.now, run, DueWindows(s.db.windows, run, s.now, FirstStart(s.db.audit, run), 0));
    case Outbox(sent) => OutboxPlain(s.db, sent);
    case AuditFault =>
    case Advance(_) =>
    case Ask(_, _, _, _, _) =>
    case _ => TimersPlain(s.db, s.now);
  }

  lemma OutboxPlain(db: Db, sent: set<(Id, Id)>)
    ensures Plain(db, TickOutbox(db, sent))
  {}

  // ---- over whole runs ----

  lemma {:induction false} AlwaysLatches(cfg: Config, acts: seq<Action>)
    ensures Inv(Reached(cfg, COLD, acts).db) && Latches(Reached(cfg, COLD, acts).db)
  {
    hide Inv, Latches, Step, Plain;
    if acts == [] {
      EmptyOk();
      EmptyLatches();
    } else {
      var n := |acts| - 1;
      var s, next := Reached(cfg, COLD, acts[..n]), Reached(cfg, COLD, acts);
      AlwaysLatches(cfg, acts[..n]);
      StepKeeps(cfg, s, acts[n]);
      if acts[n].Ask? {
        AskLatches(cfg, s, acts[n]);
      } else {
        OtherPlain(cfg, s, acts[n]);
        InvIsKept(s.db);
        SafeIsKept(s.db, next.db);
        PlainLatches(s.db, next.db);
      }
      SafeIsInv(s.db, next.db);
    }
  }

  lemma SafeIsInv(db: Db, next: Db)
    requires Safe(db, next)
    ensures Inv(next)
  {
    hide Inv, Extends;
  }

  lemma EmptyLatches()
    ensures Latches(EMPTY)
  {}

  /** Over any run: if the log holds the rejection of a blocking review, the action of the check it was for is rejected
      in the state reached, and every check of that action of the run created after it has been denied for it. */
  lemma RejectionIsFinal(cfg: Config, acts: seq<Action>, i: nat)
    requires i < |Reached(cfg, COLD, acts).db.audit|
    requires Reached(cfg, COLD, acts).db.audit[i].kind == ReviewRejected
    ensures var db := Reached(cfg, COLD, acts).db;
            && db.audit[i].value.AReview?
            && var v := db.audit[i].value.review;
               && v.check.Some? && v.check.value in db.checks && db.checks[v.check.value].run == v.run
               && var action := db.checks[v.check.value].intent.action;
                  v.kind == Blocking ==>
                    && (v.run, action) in db.actions && db.actions[(v.run, action)].rejected
                    && forall j | i < j < |db.audit| && CreatesAt(db.audit, j, v.run, action) ::
                        var id := db.audit[j].value.check.id;
                        id in db.checks && db.checks[id].state == Deny && db.checks[id].reason == "REVIEW_REJECTED"
  {
    hide Inv, Reached, AllBound;
    AlwaysLatches(cfg, acts);
    var db := Reached(cfg, COLD, acts).db;
    InvIsKept(db);
    ReplayedChecks(db);
    RejectionMeans(db.audit, i);
    var v := db.audit[i].value.review;
    var action := db.checks[v.check.value].intent.action;
    assert v.kind == Blocking ==> RejectsAt(db.audit, db.checks, i, v.run, action);
    assert forall j | i < j < |db.audit| && v.kind == Blocking && CreatesAt(db.audit, j, v.run, action) ::
        DeniedCheck(db.checks, db.audit[j].value.check.id);
  }

  lemma RejectionMeans(audit: seq<Event>, i: nat)
    requires Lawful(audit) && i < |audit| && audit[i].kind == ReviewRejected
    ensures audit[i].value.AReview? && OpenedFor(ChecksOf(audit), audit[i].value.review)
  {
    assert LegalAt(audit, i);
    EventHasCheck(audit, i);
  }
}
