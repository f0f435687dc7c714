/** What requests do to the tables when they are served: every row that changes, how, and that no other does. States,
    reasons and conditions are spelled out here, apart from the code that computes them. */
module Effects {
  import opened Basics
  import opened Ids
  import opened Records
  import opened Store
  import opened Detect
  import opened Protocol
  import opened Timers
  import opened Steps

  // ---- rows before and after ----

  ghost predicate KeyedRows(db: Db) {
    && (forall id | id in db.runs :: db.runs[id].id == id)
    && (forall id | id in db.checks :: db.checks[id].id == id)
    && (forall id | id in db.reviews :: db.reviews[id].id == id)
  }

  /** The rows of the runs in `of`, or of all runs. */
  predicate Of(of: Option<set<Id>>, run: Id) { of.Some? ==> run in of.value }

  /** The runs in `ids` go to `state` for the reason `why`. */
  ghost predicate RunsHalt(runs: map<Id, Run>, later: map<Id, Run>, ids: set<Id>, state: RunState, why: string) {
    && later.Keys == runs.Keys
    && forall id | id in runs ::
         later[id] ==
         if id in ids then runs[id].(state := state, pauseReason := Some(why), revision := runs[id].revision + 1)
         else runs[id]
  }

  /** The EVALUATING checks of those runs end in `state` for the reason `why`. */
  ghost predicate ChecksEnd(checks: map<Id, Check>, later: map<Id, Check>, of: Option<set<Id>>, state: CheckState,
                            why: string)
  {
    && later.Keys == checks.Keys
    && forall id | id in checks ::
         later[id] ==
         if checks[id].state == Evaluating && Of(of, checks[id].run)
         then checks[id].(state := state, reason := why, revision := checks[id].revision + 1) else checks[id]
  }

  /** OPEN, CLAIMED, DEFERRED or ACCEPTED. */
  predicate Waits(v: Review) { v.state == ROpen || v.state == Claimed || v.state == Deferred || v.state == Accepted }

  /** The active reviews of those runs expire. */
  ghost predicate ReviewsExpire(reviews: map<Id, Review>, later: map<Id, Review>, of: Option<set<Id>>) {
    && later.Keys == reviews.Keys
    && forall id | id in reviews ::
         later[id] ==
         if Waits(reviews[id]) && Of(of, reviews[id].run)
         then reviews[id].(state := RExpired, revision := reviews[id].revision + 1, owner := None, leaseUntilMs := None)
         else reviews[id]
  }

  function Only(run: Option<Id>): Option<set<Id>> { if run.None? then None else Some({run.value}) }

  lemma FinishedRows(db: Db, now: nat, run: Option<Id>, state: CheckState, why: string)
    requires forall id | id in db.checks :: db.checks[id].id == id
    ensures ChecksEnd(db.checks, FinishAll(db, now, EvaluatingIds(db, run), state, why).checks, Only(run), state, why)
  {
    hide FinishAll, EvaluatingIds;
    EvaluatingOnce(db, run);
    FinishAllMap(db, now, EvaluatingIds(db, run), state, why);
  }

  lemma EvaluatingOnce(db: Db, run: Option<Id>)
    ensures forall i, j | 0 <= i < j < |EvaluatingIds(db, run)| ::
              EvaluatingIds(db, run)[i] != EvaluatingIds(db, run)[j]
  {}

  lemma ExpiredRows(db: Db, now: nat, run: Option<Id>)
    requires forall id | id in db.reviews :: db.reviews[id].id == id
    ensures ReviewsExpire(db.reviews, ExpireAll(db, now, ActiveReviewIds(db, run)).reviews, Only(run))
  {
    hide ExpireAll, ActiveReviewIds;
    ActiveOnce(db, run);
    ExpireAllMap(db, now, ActiveReviewIds(db, run));
  }

  lemma ActiveOnce(db: Db, run: Option<Id>)
    ensures forall i, j | 0 <= i < j < |ActiveReviewIds(db, run)| ::
              ActiveReviewIds(db, run)[i] != ActiveReviewIds(db, run)[j]
  {}

  // ---- a run halts ----

  /** One run halts, and its checks end with it. */
  ghost predicate HaltsOne(db: Db, d: Db, id: Id, state: RunState, why: string, check: CheckState, note: string) {
    && KeepsRest(db, d) && RunsHalt(db.runs, d.runs, {id}, state, why)
    && ChecksEnd(db.checks, d.checks, Some({id}), check, note)
  }

  lemma HaltedRow(runs: map<Id, Run>, id: Id, state: RunState, why: string)
    requires id in runs && forall k | k in runs :: runs[k].id == k
    ensures RunsHalt(runs, runs[id := Halt(runs[id], state, why)], {id}, state, why)
  {}

  lemma HaltedWithChecks(db: Db, now: nat, kind: Kind, id: Id, state: RunState, why: string, check: CheckState,
                         note: string)
    requires KeyedRows(db) && id in db.runs
    ensures var d1 := Put(db, now, kind, ARun(Halt(db.runs[id], state, why)));
            var d := FinishAll(d1, now, EvaluatingIds(d1, Some(id)), check, note);
            HaltsOne(db, d, id, state, why, check, note) && d.reviews == db.reviews
  {
    hide Put, FinishAll, RunsHalt, ChecksEnd;
    var r := Halt(db.runs[id], state, why);
    PutFrame(db, now, kind, ARun(r));
    HaltedRow(db.runs, id, state, why);
    FinishedRows(Put(db, now, kind, ARun(r)), now, Some(id), check, note);
  }

  /** ... and its reviews expire. */
  lemma HaltedWithAll(db: Db, now: nat, kind: Kind, id: Id, state: RunState, why: string, check: CheckState,
                      note: string)
    requires KeyedRows(db) && id in db.runs
    ensures var d1 := Put(db, now, kind, ARun(Halt(db.runs[id], state, why)));
            var d := ExpireReviews(FinishAll(d1, now, EvaluatingIds(d1, Some(id)), check, note), now, id);
            HaltsOne(db, d, id, state, why, check, note) && ReviewsExpire(db.reviews, d.reviews, Some({id}))
  {
    hide Put, FinishAll, ExpireAll, ChecksEnd, ReviewsExpire, RunsHalt;
    HaltedWithChecks(db, now, kind, id, state, why, check, note);
    var d1 := Put(db, now, kind, ARun(Halt(db.runs[id], state, why)));
    ExpiredRows(FinishAll(d1, now, EvaluatingIds(d1, Some(id)), check, note), now, Some(id));
  }

  // ---- system.drain ----

  /** Draining turns the host DRAINING and expires every EVALUATING check; nothing else moves. */
  lemma DrainDoes(db: Db, host: Host, now: nat)
    requires KeyedRows(db) && host.state != Draining
    ensures var plan := Drain(db, host, now);
            && plan.Commit? && plan.out == Changed("", 0, "DRAINING") && plan.host == Draining
            && KeepsRest(db, plan.db) && plan.db.runs == db.runs && plan.db.reviews == db.reviews
            && ChecksEnd(db.checks, plan.db.checks, None, CExpired, "DRAIN")
            && |plan.db.audit| > |db.audit| && plan.db.audit[|db.audit|].value == AHost(Host(Draining, host.epoch))
  {
    hide Put, FinishAll, ChecksEnd;
    var d := Put(db, now, HostDraining, AHost(host.(state := Draining)));
    PutFrame(db, now, HostDraining, AHost(host.(state := Draining)));
    FinishedRows(d, now, None, CExpired, "DRAIN");
    FinishAllAppends(d, now, EvaluatingIds(d, None), CExpired, "DRAIN");
  }

  lemma {:induction false} FinishAllAppends(db: Db, now: nat, ids: seq<Id>, state: CheckState, why: string)
    requires HasChecks(db, ids)
    ensures db.audit <= FinishAll(db, now, ids, state, why).audit
    decreases |ids|
  {
    hide Put;
    if ids != [] {
      var c := Finish(db.checks[ids[0]], state, why);
      PutFrame(db, now, CheckFinalized, ACheck(c));
      FinishAllAppends(Put(db, now, CheckFinalized, ACheck(c)), now, ids[1..], state, why);
    }
  }

  // ---- policy.activate ----

  /** The runs in `ids` pause because their policy is replaced; their checks go stale and their reviews expire. */
  ghost predicate Replaced(db: Db, d: Db, ids: set<Id>) {
    && RunsHalt(db.runs, d.runs, ids, Paused, "POLICY_REPLACED")
    && ChecksEnd(db.checks, d.checks, Some(ids), Stale, "STALE")
    && ReviewsExpire(db.reviews, d.reviews, Some(ids))
  }

  lemma RunsHaltThen(a: map<Id, Run>, b: map<Id, Run>, c: map<Id, Run>, id: Id, ids: set<Id>, state: RunState,
                     why: string)
    requires RunsHalt(a, b, {id}, state, why) && RunsHalt(b, c, ids, state, why) && id !in ids
    ensures RunsHalt(a, c, ids + {id}, state, why)
  {}

  lemma ChecksEndThen(a: map<Id, Check>, b: map<Id, Check>, c: map<Id, Check>, id: Id, ids: set<Id>)
    requires ChecksEnd(a, b, Some({id}), Stale, "STALE") && ChecksEnd(b, c, Some(ids), Stale, "STALE")
    ensures ChecksEnd(a, c, Some(ids + {id}), Stale, "STALE")
  {}

  lemma ReviewsExpireThen(a: map<Id, Review>, b: map<Id, Review>, c: map<Id, Review>, id: Id, ids: set<Id>)
    requires ReviewsExpire(a, b, Some({id})) && ReviewsExpire(b, c, Some(ids))
    ensures ReviewsExpire(a, c, Some(ids + {id}))
  {}

  lemma StillKeyed(db: Db, m: Db, ids: set<Id>)
    requires KeyedRows(db) && Replaced(db, m, ids)
    ensures KeyedRows(m)
  {}

  lemma NothingReplaced(db: Db)
    ensures Replaced(db, db, {})
  {}

  function Members(ids: seq<Id>): set<Id> { set i | 0 <= i < |ids| :: ids[i] }

  lemma FirstAndRest(ids: seq<Id>)
    requires ids != [] && forall i, j | 0 <= i < j < |ids| :: ids[i] != ids[j]
    ensures Members(ids) == Members(ids[1..]) + {ids[0]} && ids[0] !in Members(ids[1..])
  {
    assert forall i | 0 < i < |ids| :: ids[i] == ids[1..][i - 1];
    assert forall i | 0 <= i < |ids| - 1 :: ids[1..][i] == ids[i + 1];
  }

  lemma {:induction false} ReplaceAllDoes(db: Db, now: nat, ids: seq<Id>)
    requires KeyedRows(db) && HasRuns(db, ids) && forall i, j | 0 <= i < j < |ids| :: ids[i] != ids[j]
    ensures Replaced(db, ReplaceAll(db, now, ids), Members(ids))
    decreases |ids|
  {
    hide Put, FinishAll, ExpireAll, RunsHalt, ChecksEnd, ReviewsExpire, KeyedRows, Members;
    if ids == [] {
      assert Members(ids) == {} by { NoMembers(); }
      NothingReplaced(db);
    } else {
      var id, rest := ids[0], ids[1..];
      var m := ExpireReviews(StaleChecks(Put(db, now, RunPaused, ARun(Halt(db.runs[id], Paused, "POLICY_REPLACED"))),
                                         now, id), now, id);
      HaltedWithAll(db, now, RunPaused, id, Paused, "POLICY_REPLACED", Stale, "STALE");
      StillKeyed(db, m, {id});
      StillThere(db.runs, m.runs, {id}, Paused, "POLICY_REPLACED");
      ReplaceAllDoes(m, now, rest);
      FirstAndRest(ids);
      var d := ReplaceAll(m, now, rest);
      RunsHaltThen(db.runs, m.runs, d.runs, id, Members(rest), Paused, "POLICY_REPLACED");
      ChecksEndThen(db.checks, m.checks, d.checks, id, Members(rest));
      ReviewsExpireThen(db.reviews, m.reviews, d.reviews, id, Members(rest));
    }
  }

  lemma NoMembers()
    ensures Members([]) == {}
  {}

  lemma StillThere(runs: map<Id, Run>, later: map<Id, Run>, ids: set<Id>, state: RunState, why: string)
    requires RunsHalt(runs, later, ids, state, why)
    ensures later.Keys == runs.Keys
  {}

  /** Bands, thresholds and numbers in their ranges, no monitor and no detector twice, the three required detectors
      blocking and there, the other two trailing and optional. */
  predicate SoundPolicy(p: Policy) {
    && p.driftLowBp < p.driftHighBp <= 10_000
    && p.baseline[0] as int + p.baseline[1] as int + p.baseline[2] as int + p.baseline[3] as int > 0
    && p.minWindowSamples >= 100 && p.highWindows == 2 && p.lowWindows == 3
    && 1 <= p.maxReplicas <= 64 && 1 <= p.reviewAt <= p.cap
    && (forall i, j | 0 <= i < j < |p.monitors| ::
          p.monitors[i].id != p.monitors[j].id && p.monitors[i].detector != p.monitors[j].detector)
    && (forall m | m in p.monitors ::
          if m.detector == Rate || m.detector == Distribution then m.mode == Trailing && !m.required
          else m.mode == Blocking && m.required)
    && (exists m | m in p.monitors :: m.detector == Scope) && (exists m | m in p.monitors :: m.detector == Spend)
    && (exists m | m in p.monitors :: m.detector == Replicas)
  }

  lemma Detects(p: Policy, d: Detector)
    ensures HasDetector(p, d) <==> exists m | m in p.monitors :: m.detector == d
  {
    if HasDetector(p, d) {
      var i :| 0 <= i < |p.monitors| && p.monitors[i].detector == d;
      assert p.monitors[i] in p.monitors;
    }
  }

  lemma ShapesAre(ms: seq<Monitor>)
    ensures (forall i | 0 <= i < |ms| :: MonitorShape(ms[i])) <==> forall m | m in ms :: MonitorShape(m)
  {
    forall i | 0 <= i < |ms| ensures ms[i] in ms {}
  }

  lemma ConstraintsAre(p: Policy)
    ensures PolicyConstraints(p) <==> SoundPolicy(p)
  {
    hide HasDetector;
    Detects(p, Scope);
    Detects(p, Spend);
    Detects(p, Replicas);
    ShapesAre(p.monitors);
  }

  /** A policy is activated exactly if it is sound, signed, this tenant's, built of installed monitors, and the next
      generation of the active one. */
  lemma ActivateWhen(cfg: Config, db: Db, host: HostState, now: nat, sp: Signed<Policy>, expected: Counter)
    ensures var p, k := sp.body, |db.policies|;
            Activate(cfg, db, host, now, sp, expected).Commit? <==>
              && sp.valid && SoundPolicy(p) && p.tenant == cfg.tenant
              && (forall m | m in p.monitors :: (m.detector, m.artifact) in cfg.installed)
              && (if k == 0 then expected == 0 && p.generation == 1 && p.predecessor == None
                  else && expected == db.policies[k - 1].generation
                       && p.generation == db.policies[k - 1].generation + 1
                       && p.predecessor == Some(OfPolicy(db.policies[k - 1])))
  {
    hide ReplaceAll, PolicyConstraints, SoundPolicy, Put, Installed;
    InstalledMeans(cfg, sp.body);
    ConstraintsAre(sp.body);
  }

  lemma InstalledMeans(cfg: Config, p: Policy)
    ensures Installed(cfg, p) <==> forall m | m in p.monitors :: (m.detector, m.artifact) in cfg.installed
  {
    if Installed(cfg, p) {
      forall m | m in p.monitors ensures (m.detector, m.artifact) in cfg.installed {
        var i :| 0 <= i < |p.monitors| && p.monitors[i] == m;
      }
    }
  }

  /** Activating a policy appends it and pauses every OPEN run, with its checks and reviews; nothing else moves. */
  lemma ActivateDoes(cfg: Config, db: Db, host: HostState, now: nat, sp: Signed<Policy>, expected: Counter)
    requires KeyedRows(db) && Activate(cfg, db, host, now, sp, expected).Commit?
    ensures var plan, p := Activate(cfg, db, host, now, sp, expected), sp.body;
            && plan.host == host && plan.out == Changed(p.id, p.generation, "ACTIVE")
            && KeepsRest(db.(policies := db.policies + [p]), plan.db)
            && Replaced(db, plan.db, set id | id in db.runs && db.runs[id].state == Open)
  {
    hide Put, ReplaceAll, Activate, Replaced, OpenRunIds, Members;
    var p := sp.body;
    var d1 := db.(policies := db.policies + [p]);
    var d := Put(d1, now, PolicyActivated, APolicy(p));
    ActivatePlan(cfg, db, host, now, sp, expected);
    PutFrame(d1, now, PolicyActivated, APolicy(p));
    OpenRunsAre(d);
    ReplaceAllDoes(d, now, OpenRunIds(d));
    SameReplaced(db, d, ReplaceAll(d, now, OpenRunIds(d)), Members(OpenRunIds(d)));
  }

  lemma ActivatePlan(cfg: Config, db: Db, host: HostState, now: nat, sp: Signed<Policy>, expected: Counter)
    requires Activate(cfg, db, host, now, sp, expected).Commit?
    ensures var p := sp.body;
            var d := Put(db.(policies := db.policies + [p]), now, PolicyActivated, APolicy(p));
            Activate(cfg, db, host, now, sp, expected)
            == Commit(Changed(p.id, p.generation, "ACTIVE"), ReplaceAll(d, now, OpenRunIds(d)), host)
  {
    hide Put, ReplaceAll, PolicyConstraints, OpenRunIds, Installed;
  }

  lemma OpenRunsAre(db: Db)
    ensures Members(OpenRunIds(db)) == set id | id in db.runs && db.runs[id].state == Open
    ensures forall i, j | 0 <= i < j < |OpenRunIds(db)| :: OpenRunIds(db)[i] != OpenRunIds(db)[j]
  {
    MembersAre(OpenRunIds(db), set id | id in db.runs && db.runs[id].state == Open);
  }

  lemma MembersAre(ids: seq<Id>, s: set<Id>)
    requires forall id :: id in ids <==> id in s
    ensures Members(ids) == s
  {
    forall id | id in s ensures id in Members(ids) { assert id in ids; }
    forall i | 0 <= i < |ids| ensures ids[i] in s { assert ids[i] in ids; }
  }

  lemma SameReplaced(db: Db, d: Db, e: Db, ids: set<Id>)
    requires d.runs == db.runs && d.checks == db.checks && d.reviews == db.reviews && Replaced(d, e, ids)
    ensures Replaced(db, e, ids)
  {}

  // ---- runs.open, runs.control ----

  /** The OPEN and PAUSED runs. */
  function Live(runs: map<Id, Run>): set<Id> {
    set id | id in runs && (runs[id].state == Open || runs[id].state == Paused)
  }

  /** A run opens exactly if its id is new, its source is this caller's at that epoch and profile, the profile is
      certified (and guards for real outside the laboratory), its policy is the active one and fewer than 64 runs live.
      It opens OPEN, at the start of its stream, and nothing else moves. */
  lemma StartDoes(cfg: Config, db: Db, host: HostState, now: nat, p: Principal, q: Request)
    requires q.OpenRun?
    ensures var plan := Start(cfg, db, host, now, p, q);
            && (plan.Commit? <==>
                  && q.id !in db.runs && q.source in cfg.sources
                  && cfg.sources[q.source] == Source(p.id, q.sourceEpoch, q.profile)
                  && q.profile in cfg.certified
                  && !(q.mode == Guarded && q.profile == "runtime-guard/1" && cfg.lab)
                  && db.policies != [] && q.policyDigest == OfPolicy(db.policies[|db.policies| - 1])
                  && |Live(db.runs)| < 64)
            && (plan.Commit? ==>
                  && plan.host == host && plan.out == Changed(q.id, 1, "OPEN") && KeepsRest(db, plan.db)
                  && plan.db.checks == db.checks && plan.db.reviews == db.reviews
                  && plan.db.runs == db.runs[q.id := Run(q.id, 1, q.source, q.sourceEpoch, p.id, q.guardEpoch, q.boot,
                                                         q.mode, q.profile, Open, q.policyDigest, Head(0, ZeroHash),
                                                         None, None, Drift(Warmup, 0, 0, None, None, DataMissing),
                                                         None)])
  {
    hide Put;
    assert (set id | id in db.runs && db.runs[id].state in {Open, Paused}) == Live(db.runs);
    PutFrame(db, now, RunOpened,
             ARun(Run(q.id, 1, q.source, q.sourceEpoch, p.id, q.guardEpoch, q.boot, q.mode, q.profile,
                                          Open, q.policyDigest, EMPTY_HEAD, None, None, FRESH, None)));
  }

  /** Operators control every run; a runtime may stop its own. */
  predicate MayControl(r: Run, p: Principal, action: RunAction) {
    Operator in p.roles || (Runtime in p.roles && r.runtime == p.id && action != Resume)
  }

  /** An observation cut at `cut` still counts at `now`. */
  predicate Fresh(now: nat, cut: nat, freshness: nat) { freshness > 0 && now < cut + freshness }

  /** Pausing takes an OPEN run; its checks go stale with it, and its reviews wait on. */
  lemma PauseDoes(db: Db, host: HostState, now: Counter, p: Principal, id: Id, expected: nat, why: string)
    requires KeyedRows(db)
    ensures var plan := Control(db, host, now, p, id, expected, Pause, why);
            && (plan.Commit? <==> id in db.runs && MayControl(db.runs[id], p, Pause) && db.runs[id].revision == expected
                                  && db.runs[id].state == Open)
            && (plan.Commit? ==>
                  && plan.host == host && plan.out == Changed(id, expected + 1, "PAUSED")
                  && HaltsOne(db, plan.db, id, Paused, why, Stale, "STALE") && plan.db.reviews == db.reviews)
  {
    hide Put, FinishAll, HaltsOne;
    if id in db.runs { HaltedWithChecks(db, now, RunPaused, id, Paused, why, Stale, "STALE"); }
  }

  /** Closing takes any run that is not CLOSED; its checks are cancelled and its reviews expire. */
  lemma CloseDoes(db: Db, host: HostState, now: Counter, p: Principal, id: Id, expected: nat, why: string)
    requires KeyedRows(db)
    ensures var plan := Control(db, host, now, p, id, expected, Close, why);
            && (plan.Commit? <==> id in db.runs && MayControl(db.runs[id], p, Close) && db.runs[id].revision == expected
                                  && db.runs[id].state != Closed)
            && (plan.Commit? ==>
                  && plan.host == host && plan.out == Changed(id, expected + 1, "CLOSED")
                  && HaltsOne(db, plan.db, id, Closed, why, Cancelled, "CANCELLED")
                  && ReviewsExpire(db.reviews, plan.db.reviews, Some({id})))
  {
    hide Put, FinishAll, ExpireAll, HaltsOne, ReviewsExpire;
    if id in db.runs { HaltedWithAll(db, now, RunClosed, id, Closed, why, Cancelled, "CANCELLED"); }
  }
}
