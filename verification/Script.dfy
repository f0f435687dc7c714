/** Scripted runs of the daemon, all at time 0: what is known of the tables after each request and each reply. */
module Script {
  import opened Basics
  import opened Ids
  import opened Records
  import opened Store
  import opened Detect
  import opened Protocol
  import opened Timers
  import opened System
  import opened Guarantees
  import opened Fairness
  import Q = Queue
  import TB = TokenBucket

  /** One principal in every role, one certified source, nothing else. */
  const WHO := Principal("p", {Operator, Runtime, Reviewer})
  const CFG := Config("t", {(Scope, "m"), (Spend, "m"), (Replicas, "m")}, map["s" := Source("p", 0, "f")], {"f"}, false)

  const MONITORS: seq<Monitor> :=
    [Monitor("a", Scope, Blocking, true, "m", 1), Monitor("b", Spend, Blocking, true, "m", 1),
     Monitor("c", Replicas, Blocking, true, "m", 1)]

  /** A first policy that meets every constraint, with a review lifetime of `ttl`; every action of cost 1 is
      reviewed. */
  function FirstPolicy(ttl: Counter): Policy {
    Policy("t", "w", 1, None, [], 1, 1, 1, 0, [1, 0, 0, 0], 2, 1, 100, 2, 3, 10, 10, 10, ttl, 10, 10, 10, 10, MONITORS)
  }

  /** The one observation of a run, and the intent request `rid` asks about. */
  function Seen(run: Id): Observation {
    Observation("s", 0, "b", run, 1, ZeroHash, 0, Snapshot([], Some(1), 0, 0, 0, None))
  }

  function Asked(rid: Id): Intent { Intent(rid, "t", 0, [], 1) }

  // ---- the script's lines ----

  function Request1(rid: Id, q: Request): Action { Ask(WHO, rid, q, Commits, {}) }
  function Activation(ttl: Counter): Action { Request1("1", ActivatePolicy(Signed(FirstPolicy(ttl), true), 0)) }
  function Opening(rid: Id, run: Id, ttl: Counter): Action {
    Request1(rid, OpenRun(run, "s", 0, 0, "b", Shadow, "f", OfPolicy(FirstPolicy(ttl))))
  }
  function Telling(rid: Id, run: Id): Action { Request1(rid, Append(Signed(Seen(run), true))) }
  function Checking(rid: Id, run: Id): Action {
    Request1(rid, CreateCheck(rid, run, Asked(rid), RefOf(Seen(run)), None))
  }
  function Claiming(rid: Id, named: Option<Id>): Action { Request1(rid, ClaimReview(named, None)) }

  function MonitorOf(m: Id): Monitor { MONITORS[if m == "a" then 0 else if m == "b" then 1 else 2] }

  /** What the worker of monitor m rightly answers. */
  function Reckoned(rid: Id, run: Id, m: Id, ttl: Counter): Result {
    Expected(MonitorOf(m), FirstPolicy(ttl), Seen(run), RefOf(Seen(run)), Asked(rid))
  }

  function Reply1(rid: Id, run: Id, m: Id, ttl: Counter): Completion {
    Completion(rid, m, m, Some(Reckoned(rid, run, m, ttl)))
  }

  // ---- what is known of the tables on the way ----

  /** The policies, the runs and which of them have their observation, the reviews, the cursors, and the requests so
      far. */
  datatype Scene = Scene(
    policies: seq<Policy>, runs: set<Id>, told: set<Id>, reviews: map<Id, Review>, cursors: map<nat, Id>, used: seq<Id>)

  /** Every check but those in `busy` has ended; every id of a check or action is that of a request. */
  ghost predicate Set(db: Db, x: Scene, busy: set<Id>) {
    && db.policies == x.policies && db.reviews == x.reviews && db.cursors == x.cursors
    && RunsSet(db.runs, db.observations, x.policies, x.runs, x.told)
    && ChecksSet(db.checks, x.used, busy) && ActionsSet(db.actions, x.used) && ReviewsSet(x.reviews, x.used)
  }

  ghost predicate RunsSet(runs: map<Id, Run>, streams: Streams, policies: seq<Policy>, ids: set<Id>, told: set<Id>) {
    && runs.Keys == ids && told <= ids && streams.Keys <= told
    && forall id | id in ids :: RunFits(runs[id], StreamIn(streams, id), id, policies, id in told)
  }

  ghost predicate ChecksSet(checks: map<Id, Check>, used: seq<Id>, busy: set<Id>) {
    forall id | id in checks :: id in used && (id !in busy ==> Terminal(checks[id].state))
  }

  ghost predicate ActionsSet(actions: map<(Id, Id), Binding>, used: seq<Id>) { forall k | k in actions :: k.1 in used }

  ghost predicate ReviewsSet(reviews: map<Id, Review>, used: seq<Id>) {
    forall id | id in reviews :: ReviewFits(reviews[id], used)
  }

  lemma UsedGrows(checks: map<Id, Check>, actions: map<(Id, Id), Binding>, reviews: map<Id, Review>, used: seq<Id>,
                  busy: set<Id>, rid: Id)
    requires ChecksSet(checks, used, busy) && ActionsSet(actions, used) && ReviewsSet(reviews, used)
    ensures ChecksSet(checks, used + [rid], busy) && ActionsSet(actions, used + [rid])
            && ReviewsSet(reviews, used + [rid])
  {}

  ghost predicate RunFits(r: Run, os: seq<Observation>, id: Id, policies: seq<Policy>, told: bool) {
    && r.id == id && r.state == Open && r.runtime == WHO.id && r.source == "s" && r.sourceEpoch == 0 && r.boot == "b"
    && policies != [] && r.policy == OfPolicy(policies[|policies| - 1])
    && (if told then os == [Seen(id)] && r.cursor == Head(1, OfObservation(Seen(id))) && r.lastReceivedMs == Some(0)
        else os == [] && r.cursor == EMPTY_HEAD && r.lastCutMs == None && r.lastReceivedMs == None)
  }

  /** A review of a held check: its basis tells which request's. */
  ghost predicate ReviewFits(v: Review, used: seq<Id>) {
    && v.basis.Some? && v.basis.value.intent.OfIntent? && v.basis.value.intent.intent.action in used
    && v.level == Warning && v.kind == Blocking
  }

  /** A host that is up and ready at time 0, with requests left to spend. */
  ghost predicate Front(s: Sys, used: seq<Id>) {
    && s.up && s.host.state == Ready && s.now == 0
    && (forall k | k in s.db.idempotency :: k.1 in used)
    && |used| <= 50 && RateAt(s, WHO.id) == TB.Bucket(TB.FULL - 1000 * |used|, 0)
  }

  ghost predicate Standing(s: Sys, x: Scene) { Front(s, x.used) && Set(s.db, x, {}) }

  // ---- requests ----

  lemma PolicyIsSound(ttl: Counter)
    ensures PolicyConstraints(FirstPolicy(ttl)) && FirstPolicy(ttl).tenant == CFG.tenant
            && Installed(CFG, FirstPolicy(ttl))
  {
    var p := FirstPolicy(ttl);
    assert p.monitors[0].detector == Scope && p.monitors[1].detector == Spend && p.monitors[2].detector == Replicas;
  }

  lemma PolicyIs(ttl: Counter)
    ensures var p := FirstPolicy(ttl);
            && p.generation == 1 && p.predecessor == None && p.reviewTtlMs == ttl && p.claimLeaseMs == 10
            && p.monitors == MONITORS && p.freshnessMs == 10 && p.evaluationMs == 10 && p.queueCapacity == 10
            && p.perRunOpenReviews == 10
  {}

  lemma NothingToRecover(db: Db, now: nat)
    requires db.runs == map[] && db.reviews == map[] && db.checks == map[]
    ensures Recovered(db, now) == db
  {}

  const BOOTED := Scene([], {}, {}, map[], map[], [])

  lemma NothingSet(db: Db)
    requires db.policies == [] && db.reviews == map[] && db.cursors == map[] && db.runs == map[]
    requires db.observations == map[] && db.checks == map[] && db.actions == map[]
    ensures Set(db, BOOTED, {})
  {}

  lemma Booted()
    ensures Standing(Step(CFG, COLD, Boot(3, 0)), BOOTED)
  {
    hide Put, Recovered, Set;
    var d1 := EMPTY.(hostEpoch := 1);
    var d2 := Put(d1, 0, HostStarted, AHost(Host(Starting, 1)));
    PutFrame(d1, 0, HostStarted, AHost(Host(Starting, 1)));
    NothingToRecover(d2, 0);
    PutFrame(d2, 0, HostReady, AHost(Host(Ready, d2.hostEpoch)));
    NothingSet(Put(d2, 0, HostReady, AHost(Host(Ready, d2.hostEpoch))));
  }

  lemma RowCommits(s: Sys, rid: Id, q: Request, out: Reply, d: Db)
    requires s.host.state == Ready && (WHO.id, rid) !in d.idempotency
    ensures Committed(s, d, ((WHO.id, rid), (q, out)), Ready, Commits, {}).0
            == s.(db := d.(idempotency := d.idempotency[(WHO.id, rid) := (q, out)]))
  {
    hide AfterCreate;
    var idem := ((WHO.id, rid), (q, out));
    NestedOutboxRollsBack(d.(idempotency := d.idempotency[idem.0 := idem.1]), q, idem, {});
  }

  /** A request that commits. */
  lemma AskCommits(s: Sys, rid: Id, q: Request, used: seq<Id>, out: Reply, d: Db)
    requires Front(s, used) && RoleAllowed(WHO, q) && rid !in used && |used| < 50 && d.idempotency == s.db.idempotency
    requires Handle(CFG, s.db, s.host, 0, WHO, q) == Commit(out, d, Ready)
    ensures var next := Step(CFG, s, Request1(rid, q));
            Front(next, used + [rid]) && next.db == d.(idempotency := d.idempotency[(WHO.id, rid) := (q, out)])
  {
    hide Handle, RoleAllowed, Committed;
    assert (WHO.id, rid) !in s.db.idempotency;
    RowCommits(s.(rate := s.rate[WHO.id := TB.After(RateAt(s, WHO.id), s.now)]), rid, q, out, d);
  }

  lemma RowLeavesSet(db: Db, x: Scene, busy: set<Id>, key: (Id, Id), row: (Request, Reply))
    requires Set(db, x, busy)
    ensures Set(db.(idempotency := db.idempotency[key := row]), x, busy)
  {
    hide RunsSet, ChecksSet, ActionsSet, ReviewsSet;
  }

  lemma Activated(s: Sys, ttl: Counter)
    requires Standing(s, BOOTED)
    ensures Standing(Step(CFG, s, Activation(ttl)), BOOTED.(policies := [FirstPolicy(ttl)], used := ["1"]))
  {
    hide Put, PolicyConstraints, Step, FirstPolicy, Installed;
    PolicyIsSound(ttl);
    PolicyIs(ttl);
    var p := FirstPolicy(ttl);
    var d1 := s.db.(policies := s.db.policies + [p]);
    var d := Put(d1, 0, PolicyActivated, APolicy(p));
    PutFrame(d1, 0, PolicyActivated, APolicy(p));
    assert OpenRunIds(d) == [];
    assert ReplaceAll(d, 0, []) == d;
    AskCommits(s, "1", ActivatePolicy(Signed(p, true), 0), [], Changed(p.id, 1, "ACTIVE"), d);
    assert [] + ["1"] == ["1"];
  }

  lemma FewLive(runs: map<Id, Run>)
    requires |runs| < RUN_TOTAL
    ensures |set id | id in runs && runs[id].state in {Open, Paused}| < RUN_TOTAL
  {
    var live := set id | id in runs && runs[id].state in {Open, Paused};
    assert live <= runs.Keys && |runs.Keys| == |runs|;
    Smaller(live, runs.Keys);
  }

  lemma {:induction false} Smaller<T>(a: set<T>, b: set<T>)
    requires a <= b
    ensures |a| <= |b|
  {
    if a != {} {
      var x :| x in a;
      Smaller(a - {x}, b - {x});
    }
  }

  /** A request whose handler leaves the tables `d`. */
  lemma Asks(s: Sys, x: Scene, y: Scene, busy: set<Id>, rid: Id, q: Request, out: Reply, d: Db)
    requires Front(s, x.used) && RoleAllowed(WHO, q) && rid !in x.used && |x.used| < 50
    requires Handle(CFG, s.db, s.host, 0, WHO, q) == Commit(out, d, Ready)
    requires y.used == x.used + [rid] && Set(d, y, busy) && d.idempotency == s.db.idempotency
    ensures var next := Step(CFG, s, Request1(rid, q));
            Front(next, y.used) && next.db == d.(idempotency := next.db.idempotency) && Set(next.db, y, busy)
  {
    hide Handle, RoleAllowed, Step, Front, Set;
    AskCommits(s, rid, q, x.used, out, d);
    RowLeavesSet(d, y, busy, (WHO.id, rid), (q, out));
  }

  lemma Opened(s: Sys, ttl: Counter, x: Scene, rid: Id, run: Id)
    requires Standing(s, x) && x.policies == [FirstPolicy(ttl)] && |x.runs| < RUN_TOTAL && |x.used| < 50
    requires run !in x.runs && rid !in x.used
    ensures Standing(Step(CFG, s, Opening(rid, run, ttl)), x.(runs := x.runs + {run}, used := x.used + [rid]))
  {
    hide Put, Step, FirstPolicy, Front, Set;
    var q := OpenRun(run, "s", 0, 0, "b", Shadow, "f", OfPolicy(FirstPolicy(ttl)));
    var d := StartPlan(s, ttl, x, rid, run);
    Asks(s, x, x.(runs := x.runs + {run}, used := x.used + [rid]), {}, rid, q, Changed(run, 1, "OPEN"), d);
  }

  function NewRun(run: Id, ttl: Counter): Run {
    Run(run, 1, "s", 0, WHO.id, 0, "b", Shadow, "f", Open, OfPolicy(FirstPolicy(ttl)), EMPTY_HEAD, None, None, FRESH,
        None)
  }

  lemma StartCommits(db: Db, host: Host, ttl: Counter, run: Id)
    requires db.policies == [FirstPolicy(ttl)] && run !in db.runs && |db.runs| < RUN_TOTAL && host.state == Ready
    ensures Handle(CFG, db, host, 0, WHO, OpenRun(run, "s", 0, 0, "b", Shadow, "f", OfPolicy(FirstPolicy(ttl))))
            == Commit(Changed(run, 1, "OPEN"), Put(db, 0, RunOpened, ARun(NewRun(run, ttl))), Ready)
  {
    hide Put, FirstPolicy;
    FewLive(db.runs);
  }

  lemma StartPlan(s: Sys, ttl: Counter, x: Scene, rid: Id, run: Id) returns (d: Db)
    requires Standing(s, x) && x.policies == [FirstPolicy(ttl)] && |x.runs| < RUN_TOTAL && run !in x.runs
    ensures Handle(CFG, s.db, s.host, 0, WHO, OpenRun(run, "s", 0, 0, "b", Shadow, "f", OfPolicy(FirstPolicy(ttl))))
            == Commit(Changed(run, 1, "OPEN"), d, Ready)
    ensures d.idempotency == s.db.idempotency && Set(d, x.(runs := x.runs + {run}, used := x.used + [rid]), {})
  {
    hide Put, FirstPolicy, ReviewsSet, ChecksSet, ActionsSet, Handle;
    var r := NewRun(run, ttl);
    assert |s.db.runs| == |s.db.runs.Keys|;
    StartCommits(s.db, s.host, ttl, run);
    d := Put(s.db, 0, RunOpened, ARun(r));
    PutFrame(s.db, 0, RunOpened, ARun(r));
    RunAdded(s.db.runs, s.db.observations, x.policies, x.runs, x.told, r);
    UsedGrows(s.db.checks, s.db.actions, s.db.reviews, x.used, {}, rid);
  }

  lemma RunAdded(runs: map<Id, Run>, streams: Streams, policies: seq<Policy>, ids: set<Id>, told: set<Id>, r: Run)
    requires RunsSet(runs, streams, policies, ids, told) && r.id !in ids && RunFits(r, [], r.id, policies, false)
    ensures RunsSet(runs[r.id := r], streams, policies, ids + {r.id}, told)
  {
    hide RunFits;
    assert StreamIn(streams, r.id) == [];
  }

  // ---- an observation ----

  lemma Told(s: Sys, ttl: Counter, x: Scene, rid: Id, run: Id)
    requires Standing(s, x) && x.policies == [FirstPolicy(ttl)] && |x.used| < 50
    requires run in x.runs && run !in x.told && rid !in x.used
    ensures Standing(Step(CFG, s, Telling(rid, run)), x.(told := x.told + {run}, used := x.used + [rid]))
  {
    hide Put, Step, FirstPolicy, Front, Set;
    var out, d := AppendPlan(s, ttl, x, rid, run);
    Asks(s, x, x.(told := x.told + {run}, used := x.used + [rid]), {}, rid, Append(Signed(Seen(run), true)), out, d);
  }

  lemma AppendCommits(db: Db, host: Host, run: Id)
    requires run in db.runs && host.state == Ready && ObservationsOf(db, run) == []
    requires exists policies :: RunFits(db.runs[run], [], run, policies, false)
    ensures var o, r2 := Seen(run), Advanced(db.runs[run], 0, Seen(run));
            Handle(CFG, db, host, 0, WHO, Append(Signed(o, true)))
            == Commit(Appended(true, r2.cursor, r2.revision),
                      Put(db.(observations := db.observations[run := [o]]), 0, ObservationAccepted, ARun(r2)), Ready)
  {
    hide Put, Quarantine, PauseSource;
    assert ObservationsOf(db, run) + [Seen(run)] == [Seen(run)];
  }

  lemma AppendPlan(s: Sys, ttl: Counter, x: Scene, rid: Id, run: Id) returns (out: Reply, d: Db)
    requires Standing(s, x) && x.policies == [FirstPolicy(ttl)] && run in x.runs && run !in x.told
    ensures Handle(CFG, s.db, s.host, 0, WHO, Append(Signed(Seen(run), true))) == Commit(out, d, Ready)
    ensures d.idempotency == s.db.idempotency && Set(d, x.(told := x.told + {run}, used := x.used + [rid]), {})
  {
    hide Put, FirstPolicy, ReviewsSet, ChecksSet, ActionsSet, Handle;
    var r, o := s.db.runs[run], Seen(run);
    assert RunFits(r, StreamIn(s.db.observations, run), run, x.policies, false);
    AppendCommits(s.db, s.host, run);
    var d1 := s.db.(observations := s.db.observations[run := [o]]);
    var r2 := Advanced(r, 0, o);
    out, d := Appended(true, r2.cursor, r2.revision), Put(d1, 0, ObservationAccepted, ARun(r2));
    PutFrame(d1, 0, ObservationAccepted, ARun(r2));
    RunTold(s.db.runs, s.db.observations, x.policies, x.runs, x.told, r2);
    UsedGrows(s.db.checks, s.db.actions, s.db.reviews, x.used, {}, rid);
  }

  lemma RunTold(runs: map<Id, Run>, streams: Streams, policies: seq<Policy>, ids: set<Id>, told: set<Id>, r: Run)
    requires RunsSet(runs, streams, policies, ids, told) && r.id in ids
             && RunFits(r, [Seen(r.id)], r.id, policies, true)
    ensures RunsSet(runs[r.id := r], streams[r.id := [Seen(r.id)]], policies, ids, told + {r.id})
  {
    hide RunFits, Seen;
    var later := streams[r.id := [Seen(r.id)]];
    assert forall id | id != r.id :: StreamIn(later, id) == StreamIn(streams, id);
  }

  // ---- a check, its three replies, and the hold ----

  const ALL: set<Id> := {"a", "b", "c"}

  function NewCheck(rid: Id, run: Id, ttl: Counter): Check {
    Check(rid, 1, run, Asked(rid), RefOf(Seen(run)), OfPolicy(FirstPolicy(ttl)), Evaluating, 0, 10, [], None, None,
          "PENDING")
  }

  /** The check's slots once the monitors in `done` have answered. */
  function SlotsWith(rid: Id, run: Id, ttl: Counter, done: set<Id>): map<Id, MonitorSlot> {
    map m | m in ALL :: if m in done then MonitorSlot(1, Done, Some(Reckoned(rid, run, m, ttl)))
                        else MonitorSlot(1, Pending, None)
  }

  lemma MonitorsRequired()
    ensures RequiredMonitors(MONITORS) == MONITORS
  {
    var one, two := [MONITORS[0]], [MONITORS[0], MONITORS[1]];
    assert MONITORS[..2] == two && two[..1] == one && one[..0] == [];
    assert RequiredMonitors(one) == one;
    assert RequiredMonitors(two) == two;
  }

  lemma SlotsArePending()
    ensures PendingSlots(MONITORS, 0) == map m | m in ALL :: MonitorSlot(1, Pending, None)
  {
    var one, two := [MONITORS[0]], [MONITORS[0], MONITORS[1]];
    assert MONITORS[..2] == two && two[..1] == one && one[..0] == [];
    assert PendingSlots(one, 0) == map["a" := MonitorSlot(1, Pending, None)];
    assert PendingSlots(two, 0) == map["a" := MonitorSlot(1, Pending, None), "b" := MonitorSlot(1, Pending, None)];
  }

  lemma MonitorFound(m: Id)
    requires m in ALL
    ensures FindMonitor(MONITORS, m) == Some(MonitorOf(m)) && MonitorOf(m).id == m
  {
    assert MONITORS[1..] == [MONITORS[1], MONITORS[2]] && MONITORS[1..][1..] == [MONITORS[2]];
  }

  /** A check of request rid, the last one, is being evaluated, and the monitors in `done` have answered. */
  ghost predicate Busy(db: Db, x: Scene, rid: Id, run: Id, ttl: Counter, done: set<Id>) {
    && Set(db, x, {rid}) && x.policies == [FirstPolicy(ttl)] && run in x.told
    && rid in db.checks && db.checks[rid] == NewCheck(rid, run, ttl)
    && rid in db.slots && db.slots[rid] == SlotsWith(rid, run, ttl, done)
    && forall id | id in x.reviews :: x.reviews[id].basis.value.intent.intent.action != rid
  }

  lemma NoneEvaluating(db: Db, x: Scene)
    requires Set(db, x, {})
    ensures forall run :: EvaluatingIds(db, run) == []
  {
    hide RunsSet, ActionsSet, ReviewsSet;
    forall run ensures EvaluatingIds(db, run) == [] {
      assert (set id | id in db.checks && db.checks[id].state == Evaluating
                       && (run.Some? ==> db.checks[id].run == run.value)) == {};
    }
  }

  lemma SeenIsThere(db: Db, x: Scene, run: Id, busy: set<Id>)
    requires Set(db, x, busy) && run in x.told
    ensures ByRef(db, RefOf(Seen(run))) == Some(Seen(run)) && RunFits(db.runs[run], [Seen(run)], run, x.policies, true)
  {
    hide ChecksSet, ActionsSet, ReviewsSet;
    assert RunFits(db.runs[run], StreamIn(db.observations, run), run, x.policies, true);
  }

  lemma NoFault(db: Db, x: Scene, ttl: Counter, rid: Id, run: Id)
    requires Set(db, x, {}) && x.policies == [FirstPolicy(ttl)] && run in x.told && rid !in x.used
    ensures CreateFault(db, 0, WHO, CreateCheck(rid, run, Asked(rid), RefOf(Seen(run)), None)) == None
  {
    hide FirstPolicy, ReviewsSet, Seen, EvaluatingIds, RunsSet, RefIn;
    PolicyIs(ttl);
    NoneEvaluating(db, x);
    SeenIsThere(db, x, run, {});
    SeenFits(run);
    RunIsThere(db, x, run, {});
  }

  lemma RunIsThere(db: Db, x: Scene, run: Id, busy: set<Id>)
    requires Set(db, x, busy) && run in x.told
    ensures run in db.runs
  {
    hide RunFits, ChecksSet, ActionsSet, ReviewsSet;
  }

  lemma CreateCommits(db: Db, host: Host, x: Scene, ttl: Counter, rid: Id, run: Id)
    requires Set(db, x, {}) && x.policies == [FirstPolicy(ttl)] && run in x.told && rid !in x.used
    requires host.state == Ready
    ensures var q := CreateCheck(rid, run, Asked(rid), RefOf(Seen(run)), None);
            var d := Registered(Put(db, 0, CheckStarted, ACheck(NewCheck(rid, run, ttl))), q, MONITORS, 0, false);
            Handle(CFG, db, host, 0, WHO, q) == Commit(Changed(rid, 1, "EVALUATING"), d, Ready)
  {
    hide Put, FirstPolicy, Registered, RunsSet, ChecksSet, ReviewsSet, Seen, CreateFault, RequiredMonitors;
    PolicyIs(ttl);
    MonitorsRequired();
    NoFault(db, x, ttl, rid, run);
  }

  lemma SeenFits(run: Id)
    ensures var o := Seen(run);
            && o.run == run && o.cutMs == 0 && o.snapshot.targetRevision == 0 && o.source == "s" && o.epoch == 0
            && o.pos == 1 && RefOf(o).pos == 1
  {}

  lemma FrontIs(s: Sys, used: seq<Id>)
    requires Front(s, used)
    ensures s.up && s.host.state == Ready && s.now == 0
  {}

  lemma Created(s: Sys, x: Scene, ttl: Counter, rid: Id, run: Id)
    requires Standing(s, x) && x.policies == [FirstPolicy(ttl)] && run in x.told && rid !in x.used && |x.used| < 50
    ensures var next := Step(CFG, s, Checking(rid, run));
            Front(next, x.used + [rid]) && Busy(next.db, x.(used := x.used + [rid]), rid, run, ttl, {})
  {
    hide Put, Step, FirstPolicy, Front, Set, Registered, Handle, Seen;
    var q, y := CreateCheck(rid, run, Asked(rid), RefOf(Seen(run)), None), x.(used := x.used + [rid]);
    var d := Registered(Put(s.db, 0, CheckStarted, ACheck(NewCheck(rid, run, ttl))), q, MONITORS, 0, false);
    FrontIs(s, x.used);
    CreateCommits(s.db, s.host, x, ttl, rid, run);
    CreatedTables(s.db, d, x, ttl, rid, run);
    Asks(s, x, y, {rid}, rid, q, Changed(rid, 1, "EVALUATING"), d);
  }

  lemma CheckAdded(checks: map<Id, Check>, actions: map<(Id, Id), Binding>, used: seq<Id>, c: Check, b: Binding)
    requires ChecksSet(checks, used + [c.id], {}) && ActionsSet(actions, used + [c.id]) && c.state == Evaluating
    ensures ChecksSet(checks[c.id := c], used + [c.id], {c.id})
    ensures ActionsSet(actions[(c.run, c.id) := b], used + [c.id])
  {}

  lemma CreatedTables(db: Db, d: Db, x: Scene, ttl: Counter, rid: Id, run: Id)
    requires Set(db, x, {}) && x.policies == [FirstPolicy(ttl)] && run in x.told && rid !in x.used
    requires d == Registered(Put(db, 0, CheckStarted, ACheck(NewCheck(rid, run, ttl))),
                             CreateCheck(rid, run, Asked(rid), RefOf(Seen(run)), None), MONITORS, 0, false)
    ensures Busy(d, x.(used := x.used + [rid]), rid, run, ttl, {}) && d.idempotency == db.idempotency
  {
    hide Put, FirstPolicy, RunsSet, Seen, ChecksSet, ActionsSet, PendingSlots;
    var c := NewCheck(rid, run, ttl);
    PutFrame(db, 0, CheckStarted, ACheck(c));
    SlotsArePending();
    UsedGrows(db.checks, db.actions, db.reviews, x.used, {}, rid);
    CheckAdded(db.checks, db.actions, x.used, c, Binding(OfIntent(Asked(rid)), false));
    assert SlotsWith(rid, run, ttl, {}) == PendingSlots(MONITORS, 0);
  }

  lemma AnswerIsRecomputed(db: Db, x: Scene, rid: Id, run: Id, ttl: Counter, done: set<Id>, m: Id)
    requires Busy(db, x, rid, run, ttl, done) && m in ALL
    ensures Recompute(db, db.checks[rid], m) == Some(Reckoned(rid, run, m, ttl))
  {
    hide FirstPolicy, Seen, Expected, ChecksSet, ActionsSet, ReviewsSet, RunsSet, RefIn, MonitorOf, SlotsWith,
         FindMonitor;
    PolicyIs(ttl);
    MonitorFound(m);
    SeenIsThere(db, x, run, {rid});
  }

  /** One more answer is stored. */
  lemma AnswerStored(db: Db, epoch: nat, x: Scene, rid: Id, run: Id, ttl: Counter, done: set<Id>, m: Id) returns (d: Db)
    requires Busy(db, x, rid, run, ttl, done) && m in ALL && m !in done
    ensures StoreReply(db, Ready, epoch, 0, Reply1(rid, run, m, ttl)) == (d, Ready, true)
    ensures Busy(d, x, rid, run, ttl, done + {m}) && d.idempotency == db.idempotency
  {
    hide FirstPolicy, Seen, Reckoned, Recompute, Put, Set;
    AnswerIsRecomputed(db, x, rid, run, ttl, done, m);
    var slot := MonitorSlot(1, Done, Some(Reckoned(rid, run, m, ttl)));
    d := SetSlot(db, rid, m, slot);
    SlotLeavesSet(db, x, {rid}, rid, m, slot);
    assert SlotsWith(rid, run, ttl, done)[m := slot] == SlotsWith(rid, run, ttl, done + {m});
  }

  lemma SlotLeavesSet(db: Db, x: Scene, busy: set<Id>, check: Id, m: Id, slot: MonitorSlot)
    requires Set(db, x, busy)
    ensures var d := SetSlot(db, check, m, slot);
            && Set(d, x, busy) && d.checks == db.checks && d.idempotency == db.idempotency
            && d.slots == db.slots[check := SlotsOf(db, check)[m := slot]]
  {
    hide RunsSet, ChecksSet, ActionsSet, ReviewsSet;
  }

  /** While an answer is missing, nothing is finalized. */
  lemma NotYet(db: Db, x: Scene, rid: Id, run: Id, ttl: Counter, done: set<Id>, m: Id)
    requires Busy(db, x, rid, run, ttl, done) && m in ALL && m !in done
    ensures MaybeFinalize(db, 0, rid) == db
  {
    hide FirstPolicy, Seen, Reckoned, Finalize, Set;
    assert SlotsOf(db, rid)[m] == MonitorSlot(1, Pending, None);
  }

  lemma Verdicts(rid: Id, run: Id, ttl: Counter)
    ensures Reckoned(rid, run, "a", ttl).verdict == Clear && Reckoned(rid, run, "b", ttl).verdict == Uncertain
    ensures Reckoned(rid, run, "c", ttl).verdict == Clear
  {}

  /** All three answers count, and one of them is uncertain. */
  lemma VectorIs(slots: map<Id, MonitorSlot>, rid: Id, run: Id, ttl: Counter)
    requires slots == SlotsWith(rid, run, ttl, ALL)
    ensures var vec := SlotVector(slots, 0);
            && (forall i | 0 <= i < |vec| :: Is(vec[i], Clear) || Is(vec[i], Uncertain))
            && (exists i | 0 <= i < |vec| :: Is(vec[i], Uncertain))
  {
    hide Reckoned;
    Verdicts(rid, run, ttl);
    var ids, vec := Ascending(slots.Keys), SlotVector(slots, 0);
    assert forall i | 0 <= i < |ids| :: ids[i] in ids;
    assert forall i | 0 <= i < |vec| :: ids[i] in ALL && vec[i] == Some(Reckoned(rid, run, ids[i], ttl));
    assert "b" in ids;
    var k :| 0 <= k < |ids| && ids[k] == "b";
    assert Is(vec[k], Uncertain);
  }

  /** No active review has the basis of this check: the action in it is new. */
  lemma BasisIsNew(db: Db, x: Scene, rid: Id, run: Id, ttl: Counter, b: Basis)
    requires Busy(db, x, rid, run, ttl, ALL) && b.intent == OfIntent(Asked(rid))
    ensures ActiveWithBasis(db, run, b) == {}
  {
    hide RunsSet, ChecksSet, ActionsSet, FirstPolicy, Seen, SlotsWith;
    forall id | id in db.reviews ensures db.reviews[id].basis != Some(b) {
      assert ReviewFits(db.reviews[id], x.used);
    }
  }

  lemma FewActive(db: Db, run: Option<Id>)
    requires |db.reviews| < 10
    ensures |ActiveReviewIds(db, run)| < 10
  {
    var ids := ActiveReviewIds(db, run);
    var s := set i | 0 <= i < |ids| :: ids[i];
    assert s <= db.reviews.Keys;
    Smaller(s, db.reviews.Keys);
    CountIs(ids);
    assert |db.reviews.Keys| == |db.reviews|;
  }

  lemma {:induction false} CountIs(ids: seq<Id>)
    requires forall i, j | 0 <= i < j < |ids| :: ids[i] != ids[j]
    ensures |set i | 0 <= i < |ids| :: ids[i]| == |ids|
  {
    if ids != [] {
      var n := |ids| - 1;
      var front := ids[..n];
      CountIs(front);
      assert (set i | 0 <= i < |ids| :: ids[i]) == (set i | 0 <= i < |front| :: front[i]) + {ids[n]};
    }
  }

  lemma InDateNow(db: Db, x: Scene, rid: Id, run: Id, ttl: Counter)
    requires Busy(db, x, rid, run, ttl, ALL)
    ensures var c, p := NewCheck(rid, run, ttl), FirstPolicy(ttl);
            && run in db.runs && db.runs[run].id == run && PolicyOf(db, c.policy) == Some(p)
            && !OutOfDate(db, 0, c, db.runs[run], p)
  {
    hide FirstPolicy, RunsSet, ChecksSet, ActionsSet, ReviewsSet, SlotsWith, RefIn, Seen;
    PolicyIs(ttl);
    RunIsThere(db, x, run, {rid});
    SeenIsThere(db, x, run, {rid});
    SeenFits(run);
  }

  lemma HeldIsDecided(db: Db, x: Scene, rid: Id, run: Id, ttl: Counter, b: Basis)
    requires Busy(db, x, rid, run, ttl, ALL) && |x.reviews| < 10 && b.intent == OfIntent(Asked(rid))
    requires run in db.runs && db.runs[run].id == run
    ensures var c, p := NewCheck(rid, run, ttl), FirstPolicy(ttl);
            var outcome := Decide(db, 0, c, db.runs[run], p, b, SlotVector(SlotsOf(db, rid), 0));
            outcome.OHeld? && outcome.newReview && Consumable(db, 0, c, db.runs[run], b) == None
  {
    hide FirstPolicy, RunsSet, ChecksSet, ActionsSet, ReviewsSet, SlotVector, Seen, ActiveReviewIds, ActiveWithBasis,
         SlotsWith, Aggregate;
    PolicyIs(ttl);
    VectorIs(SlotsOf(db, rid), rid, run, ttl);
    BasisIsNew(db, x, rid, run, ttl, b);
    FewActive(db, None);
    FewActive(db, Some(run));
    AggregateMeans(SlotVector(SlotsOf(db, rid), 0),
                   QueueCtx(|ActiveReviewIds(db, None)|, |ActiveReviewIds(db, Some(run))|, 10, 10, false));
  }

  /** With the last answer in, the check is held and its review opened. */
  lemma Held1(db: Db, x: Scene, rid: Id, run: Id, ttl: Counter) returns (v: Review)
    requires Busy(db, x, rid, run, ttl, ALL) && |x.reviews| < 10 && rid in x.used
    ensures v.id == ReviewIdFor(rid) && v.run == run && v.state == ROpen && v.level == Warning && v.dueMs == ttl
    ensures var d := MaybeFinalize(db, 0, rid);
            Set(d, x.(reviews := x.reviews[v.id := v]), {}) && d.idempotency == db.idempotency
  {
    hide FirstPolicy, Seen, Set, SlotVector, SlotsWith, Put, Decide, Consumable, OutOfDate, SettledResults, Findings;
    PolicyIs(ttl);
    InDateNow(db, x, rid, run, ttl);
    BusyIs(db, x, rid, run, ttl);
    var c, r, p, vec := NewCheck(rid, run, ttl), db.runs[run], FirstPolicy(ttl), SlotVector(SlotsOf(db, rid), 0);
    var o, settled := ByRef(db, c.observation).value, SettledResults(vec);
    var b := CandidateBasis(c, r, o, settled);
    HeldIsDecided(db, x, rid, run, ttl, b);
    BasisIsNew(db, x, rid, run, ttl, b);
    var why := Decide(db, 0, c, r, p, b, vec).reason;
    var c1 := c.(results := settled);
    v := NewReview(db, 0, c1, r, p, b, why);
    var c2 := Finish(c1, Held, why).(review := Some(v.id));
    var d1 := Put(db, 0, CheckFinalized, ACheck(c2));
    var d := Put(d1, 0, ReviewOpened, AReview(v));
    assert MaybeFinalize(db, 0, rid) == Finalize(db, 0, c, vec);
    assert Finalize(db, 0, c, vec) == d;
    PutFrame(db, 0, CheckFinalized, ACheck(c2));
    PutFrame(d1, 0, ReviewOpened, AReview(v));
    HeldTables(db, d, x, rid, c2, v);
  }

  lemma BusyIs(db: Db, x: Scene, rid: Id, run: Id, ttl: Counter)
    requires Busy(db, x, rid, run, ttl, ALL)
    ensures rid in db.checks && db.checks[rid] == NewCheck(rid, run, ttl) && Set(db, x, {rid})
    ensures ReadyToFinalize(SlotsOf(db, rid), 0, db.checks[rid])
    ensures ByRef(db, RefOf(Seen(run))) == Some(Seen(run))
  {
    hide FirstPolicy, Seen, Set, Reckoned;
    SeenIsThere(db, x, run, {rid});
  }

  lemma HeldTables(db: Db, d: Db, x: Scene, rid: Id, c: Check, v: Review)
    requires Set(db, x, {rid}) && c.id == rid && Terminal(c.state) && rid in x.used && ReviewFits(v, x.used)
    requires d.policies == db.policies && d.runs == db.runs && d.observations == db.observations
    requires d.cursors == db.cursors && d.actions == db.actions
    requires d.checks == db.checks[rid := c] && d.reviews == db.reviews[v.id := v]
    ensures Set(d, x.(reviews := x.reviews[v.id := v]), {})
  {
    hide RunsSet, ActionsSet, ReviewFits;
  }

  lemma ReplyWhole(s: Sys, k: Completion, d: Db)
    requires s.up && s.host.state == Ready && StoreReply(s.db, Ready, s.host.epoch, s.now, k) == (d, Ready, true)
    ensures Step(CFG, s, MonitorReply(k)) == s.(db := MaybeFinalize(d, s.now, k.check))
  {
    hide StoreReply, MaybeFinalize, TickSilence, TickDue, TickLease, TickWake;
  }

  lemma RowsLeaveFront(s: Sys, used: seq<Id>, d: Db)
    requires Front(s, used) && d.idempotency == s.db.idempotency
    ensures Front(s.(db := d), used)
  {}

  lemma Answered(s: Sys, x: Scene, rid: Id, run: Id, ttl: Counter, done: set<Id>, m: Id, later: Id)
    requires Front(s, x.used) && Busy(s.db, x, rid, run, ttl, done) && m in ALL && m !in done
    requires later in ALL && later !in done + {m}
    ensures var next := Step(CFG, s, MonitorReply(Reply1(rid, run, m, ttl)));
            Front(next, x.used) && Busy(next.db, x, rid, run, ttl, done + {m})
  {
    hide Step, Front, Busy, StoreReply, MaybeFinalize, Reckoned;
    FrontIs(s, x.used);
    var d := AnswerStored(s.db, s.host.epoch, x, rid, run, ttl, done, m);
    NotYet(d, x, rid, run, ttl, done + {m}, later);
    ReplyWhole(s, Reply1(rid, run, m, ttl), d);
    RowsLeaveFront(s, x.used, d);
  }

  lemma LastAnswered(s: Sys, x: Scene, rid: Id, run: Id, ttl: Counter, done: set<Id>, m: Id) returns (v: Review)
    requires Front(s, x.used) && Busy(s.db, x, rid, run, ttl, done) && m in ALL && m !in done && done + {m} == ALL
    requires |x.reviews| < 10 && rid in x.used
    ensures v.id == ReviewIdFor(rid) && v.run == run && v.state == ROpen && v.level == Warning && v.dueMs == ttl
    ensures Standing(Step(CFG, s, MonitorReply(Reply1(rid, run, m, ttl))), x.(reviews := x.reviews[v.id := v]))
  {
    hide Step, Front, Busy, StoreReply, MaybeFinalize, Reckoned, Set;
    FrontIs(s, x.used);
    var d := AnswerStored(s.db, s.host.epoch, x, rid, run, ttl, done, m);
    v := Held1(d, x, rid, run, ttl);
    ReplyWhole(s, Reply1(rid, run, m, ttl), d);
    RowsLeaveFront(s, x.used, MaybeFinalize(d, 0, rid));
  }

  function Replies(rid: Id, run: Id, ttl: Counter): seq<Completion> {
    [Reply1(rid, run, "a", ttl), Reply1(rid, run, "b", ttl), Reply1(rid, run, "c", ttl)]
  }

  lemma ReachedNone(s: Sys)
    ensures Reached(CFG, s, []) == s
  {}

  lemma ReachedThree(s: Sys, a: Action, b: Action, c: Action)
    ensures Reached(CFG, s, [a, b, c]) == Step(CFG, Step(CFG, Step(CFG, s, a), b), c)
  {
    hide Step, Reached;
    ReachedNone(s);
    ReachedOne(CFG, s, [], a);
    ReachedOne(CFG, s, [a], b);
    ReachedOne(CFG, s, [a, b], c);
    assert [] + [a] == [a] && [a] + [b] == [a, b] && [a, b] + [c] == [a, b, c];
  }

  lemma RepliesAre(rid: Id, run: Id, ttl: Counter)
    ensures Replying(Replies(rid, run, ttl))
            == [MonitorReply(Reply1(rid, run, "a", ttl)), MonitorReply(Reply1(rid, run, "b", ttl)),
                MonitorReply(Reply1(rid, run, "c", ttl))]
  {
    hide Reply1;
  }

  lemma ThreeReplies(s: Sys, x: Scene, rid: Id, run: Id, ttl: Counter) returns (v: Review)
    requires Front(s, x.used) && Busy(s.db, x, rid, run, ttl, {}) && |x.reviews| < 10 && rid in x.used
    ensures v.id == ReviewIdFor(rid) && v.run == run && v.state == ROpen && v.level == Warning && v.dueMs == ttl
    ensures Standing(Reached(CFG, s, Replying(Replies(rid, run, ttl))), x.(reviews := x.reviews[v.id := v]))
  {
    hide Step, Front, Busy, Reckoned, Set, Reached, Reply1, Replies, Replying;
    var a, b, c := MonitorReply(Reply1(rid, run, "a", ttl)), MonitorReply(Reply1(rid, run, "b", ttl)),
        MonitorReply(Reply1(rid, run, "c", ttl));
    RepliesAre(rid, run, ttl);
    ReachedThree(s, a, b, c);
    assert {} + {"a"} == {"a"} && {"a"} + {"b"} == {"a", "b"};
    Answered(s, x, rid, run, ttl, {}, "a", "b");
    var s1 := Step(CFG, s, a);
    Answered(s1, x, rid, run, ttl, {"a"}, "b", "c");
    v := LastAnswered(Step(CFG, s1, b), x, rid, run, ttl, {"a", "b"}, "c");
  }

  // ---- a script, line by line ----

  lemma AfterStart(ttl: Counter)
    ensures Standing(Reached(CFG, COLD, [Boot(3, 0)] + [Activation(ttl)]),
                     BOOTED.(policies := [FirstPolicy(ttl)], used := ["1"]))
  {
    hide Step, Reached, Standing, FirstPolicy;
    ReachedOne(CFG, COLD, [], Boot(3, 0));
    ReachedOne(CFG, COLD, [Boot(3, 0)], Activation(ttl));
    assert [] + [Boot(3, 0)] == [Boot(3, 0)];
    ReachedNone(COLD);
    Booted();
    Activated(Step(CFG, COLD, Boot(3, 0)), ttl);
  }

  lemma AfterOpening(acts: seq<Action>, ttl: Counter, x: Scene, rid: Id, run: Id)
    requires Standing(Reached(CFG, COLD, acts), x) && x.policies == [FirstPolicy(ttl)]
    requires |x.runs| < RUN_TOTAL && |x.used| < 50 && run !in x.runs && rid !in x.used
    ensures Standing(Reached(CFG, COLD, acts + [Opening(rid, run, ttl)]),
                     x.(runs := x.runs + {run}, used := x.used + [rid]))
  {
    hide Step, Reached, Standing, FirstPolicy;
    ReachedOne(CFG, COLD, acts, Opening(rid, run, ttl));
    Opened(Reached(CFG, COLD, acts), ttl, x, rid, run);
  }

  lemma AfterTelling(acts: seq<Action>, ttl: Counter, x: Scene, rid: Id, run: Id)
    requires Standing(Reached(CFG, COLD, acts), x) && x.policies == [FirstPolicy(ttl)]
    requires |x.used| < 50 && run in x.runs && run !in x.told && rid !in x.used
    ensures Standing(Reached(CFG, COLD, acts + [Telling(rid, run)]),
                     x.(told := x.told + {run}, used := x.used + [rid]))
  {
    hide Step, Reached, Standing, FirstPolicy;
    ReachedOne(CFG, COLD, acts, Telling(rid, run));
    Told(Reached(CFG, COLD, acts), ttl, x, rid, run);
  }

  /** A check that ends in a hold. */
  function Holding(rid: Id, run: Id, ttl: Counter): seq<Action> {
    [Checking(rid, run)] + Replying(Replies(rid, run, ttl))
  }

  lemma HeldAfter(acts: seq<Action>, x: Scene, rid: Id, run: Id, ttl: Counter) returns (v: Review)
    requires Standing(Reached(CFG, COLD, acts), x) && x.policies == [FirstPolicy(ttl)] && run in x.told
    requires rid !in x.used && |x.used| < 50 && |x.reviews| < 10
    ensures v.id == ReviewIdFor(rid) && v.run == run && v.state == ROpen && v.level == Warning && v.dueMs == ttl
    ensures Standing(Reached(CFG, COLD, acts + Holding(rid, run, ttl)),
                     x.(reviews := x.reviews[v.id := v], used := x.used + [rid]))
  {
    hide Step, Front, Set, Busy, FirstPolicy, Reached, Replies;
    var s := Reached(CFG, COLD, acts);
    ReachedSplits(CFG, COLD, acts, Holding(rid, run, ttl));
    ReachedSplits(CFG, s, [Checking(rid, run)], Replying(Replies(rid, run, ttl)));
    ReachedOne(CFG, s, [], Checking(rid, run));
    assert [] + [Checking(rid, run)] == [Checking(rid, run)];
    ReachedNone(s);
    Created(s, x, ttl, rid, run);
    v := ThreeReplies(Step(CFG, s, Checking(rid, run)), x.(used := x.used + [rid]), rid, run, ttl);
  }

  // ---- claims ----

  /** A claim of an OPEN review, by name or in turn. */
  lemma Handed(s: Sys, ttl: Counter, x: Scene, rid: Id, named: Option<Id>, v: Review) returns (v2: Review)
    requires Standing(s, x) && x.policies == [FirstPolicy(ttl)] && rid !in x.used && |x.used| < 50 && ttl > 0
    requires Found(s.db, named) == Some(v) && v.run in x.told && v.state == ROpen && v.dueMs == ttl
             && ReviewFits(v, x.used)
    ensures v2 == v.(state := Claimed, owner := v2.owner, leaseUntilMs := v2.leaseUntilMs, revision := v.revision + 1)
    ensures Standing(Step(CFG, s, Claiming(rid, named)),
                     x.(reviews := x.reviews[v.id := v2], cursors := x.cursors[Q.Rank(v.level) := v.run],
                        used := x.used + [rid]))
    ensures Hands(CFG, s, Claiming(rid, named), v)
  {
    hide Put, Step, FirstPolicy, Found, Set, Front, Handle;
    FrontIs(s, x.used);
    v2 := ClaimedBy(v, WHO, 0, 10);
    var d1 := Put(s.db, 0, ReviewClaimed, AReview(v2));
    var d := Served(d1, v);
    ClaimCommits(s, ttl, x, named, v);
    ClaimTables(s.db, x, rid, v, v2);
    var y := x.(reviews := x.reviews[v.id := v2], cursors := x.cursors[Q.Rank(v.level) := v.run],
                used := x.used + [rid]);
    Asks(s, x, y, {}, rid, ClaimReview(named, None), Changed(v.id, v2.revision, "CLAIMED"), d);
    PutFrame(s.db, 0, ReviewClaimed, AReview(v2));
    assert Step(CFG, s, Claiming(rid, named)).db.audit != s.db.audit;
  }

  lemma ClaimCommits(s: Sys, ttl: Counter, x: Scene, named: Option<Id>, v: Review)
    requires Standing(s, x) && x.policies == [FirstPolicy(ttl)] && ttl > 0
    requires Found(s.db, named) == Some(v) && v.run in x.told && v.state == ROpen && v.dueMs == ttl
    ensures var v2 := ClaimedBy(v, WHO, 0, 10);
            Handle(CFG, s.db, s.host, 0, WHO, ClaimReview(named, None))
            == Commit(Changed(v.id, v2.revision, "CLAIMED"),
                      Served(Put(s.db, 0, ReviewClaimed, AReview(v2)), v), Ready)
  {
    hide Put, FirstPolicy, Found, RunsSet, ChecksSet, ActionsSet, ReviewsSet, Served;
    PolicyIs(ttl);
    RunIsThere(s.db, x, v.run, {});
    SeenIsThere(s.db, x, v.run, {});
  }

  lemma ClaimTables(db: Db, x: Scene, rid: Id, v: Review, v2: Review)
    requires Set(db, x, {}) && ReviewFits(v, x.used) && v2.id == v.id && v2.basis == v.basis && v2.level == v.level
    requires v2.kind == v.kind
    ensures var d := Served(Put(db, 0, ReviewClaimed, AReview(v2)), v);
            && d.idempotency == db.idempotency
            && Set(d, x.(reviews := x.reviews[v.id := v2], cursors := x.cursors[Q.Rank(v.level) := v.run],
                         used := x.used + [rid]), {})
  {
    hide Put, RunsSet, ChecksSet, ActionsSet;
    PutFrame(db, 0, ReviewClaimed, AReview(v2));
    UsedGrows(db.checks, db.actions, db.reviews, x.used, {}, rid);
  }
}
