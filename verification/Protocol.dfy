/** What every request, timer and recovery step of the daemon does to the durable tables
    (crates/watch/src/methods.rs, crates/watch/src/daemon.rs), as functions from tables to tables.
    `Daemon` runs these steps against an open transaction. */
module Protocol {
  import opened Basics
  import opened Ids
  import opened Records
  import opened Store
  import opened Detect
  import Queue

  datatype Code =
    | PolicyInvalid | PolicyStale | StateConflict | NotFound | Forbidden | AdapterUnavailable | Capacity
    | RevisionConflict | SourceGap | SourceStale | SourceBinding | SourceFork | SignatureInvalid | ClockFault
    | CounterRollback | SchemaInvalid | TargetStale | IdempotencyConflict | ReviewStale | ArtifactUnavailable
    | LeaseExpired | AuditUnavailable | RateLimited | BundleLimit

  datatype Reply =
    | Appended(novel: bool, cursor: Head, revision: nat)
    | Changed(id: Id, revision: nat, state: string)
    | Refused(code: Code)

  /** A signed envelope: its body, and whether its signature verifies under a live pinned key. */
  datatype Signed<T> = Signed(body: T, valid: bool)

  datatype RunAction = Pause | Resume | Close
  datatype ReviewAction = AcceptRisk | Reject | Annotate | Release | Defer

  datatype Request =
    | DrainHost
    | ActivatePolicy(policy: Signed<Policy>, expectedGeneration: Counter)
    | OpenRun(id: Id, source: Id, sourceEpoch: Counter, guardEpoch: Counter, boot: Id, mode: GuardMode, profile: Id,
              policyDigest: Digest)
    | ControlRun(id: Id, expected: nat, action: RunAction, reason: string)
    | Append(observation: Signed<Observation>)
    | CreateCheck(id: Id, run: Id, intent: Intent, ref: Ref, review: Option<Id>)
    | CancelCheck(id: Id, expected: nat)
    | ClaimReview(named: Option<Id>, expectedRevision: Option<nat>)
    | ResolveReview(id: Id, expected: nat, resolution: ReviewAction, reason: string, wakeMs: Option<Counter>)

  datatype Role = Operator | Runtime | Reviewer | Auditor
  datatype Principal = Principal(id: Id, roles: set<Role>)
  datatype Source = Source(runtime: Id, epoch: Counter, profile: Id)
  datatype Config = Config(
    tenant: Id, installed: set<(Detector, Id)>, sources: map<Id, Source>, certified: set<Id>, lab: bool)

  type Db = Tables<Request, Reply>
  const EMPTY: Db := Tables([], [], [], map[], map[], map[], map[], map[], map[], map[], map[], {}, 0, map[])

  const RUN_TOTAL: nat := 64
  const CHECK_TOTAL: nat := 128
  const CHECK_PER_RUN: nat := 16

  /** A handler refuses without a transaction, answers from what it read, or commits new tables with a reply. */
  datatype Plan =
    | Refuse(code: Code)
    | Answer(reply: Reply)
    | Commit(out: Reply, db: Db, host: HostState)

  // ---- lookups ----

  type Streams = map<Id, seq<Observation>>
  type Slots = map<Id, map<Id, MonitorSlot>>

  function Newest(policies: seq<Policy>): Option<Policy> {
    if policies == [] then None else Some(policies[|policies| - 1])
  }

  function PolicyIn(policies: seq<Policy>, d: Digest): Option<Policy> {
    if d.OfPolicy? && d.policy in policies then Some(d.policy) else None
  }

  function StreamIn(os: Streams, run: Id): seq<Observation> { if run in os then os[run] else [] }

  /** The stored observation a reference names: source, epoch, sequence and digest must all agree. */
  function RefIn(os: Streams, r: Ref): Option<Observation> {
    if r.hash.OfObservation? && RefOf(r.hash.observation) == r
       && r.hash.observation in StreamIn(os, r.hash.observation.run)
    then Some(r.hash.observation) else None
  }

  function ActivePolicy(db: Db): Option<Policy> { Newest(db.policies) }
  function PolicyOf(db: Db, d: Digest): Option<Policy> { PolicyIn(db.policies, d) }
  function ObservationsOf(db: Db, run: Id): seq<Observation> { StreamIn(db.observations, run) }
  function ByRef(db: Db, r: Ref): Option<Observation> { RefIn(db.observations, r) }

  function Latest(db: Db, run: Id): Option<Observation> {
    var os := ObservationsOf(db, run);
    if os == [] then None else Some(os[|os| - 1])
  }

  function OpenRunIds(db: Db): (r: seq<Id>)
    ensures HasRuns(db, r)
    ensures forall id :: id in r <==> id in db.runs && db.runs[id].state == Open
  {
    var r := Ascending(set id | id in db.runs && db.runs[id].state == Open);
    assert forall i | 0 <= i < |r| :: r[i] in r;
    r
  }

  function EvaluatingIds(db: Db, run: Option<Id>): (r: seq<Id>)
    ensures HasChecks(db, r)
    ensures forall id :: id in r <==>
              id in db.checks && db.checks[id].state == Evaluating && (run.Some? ==> db.checks[id].run == run.value)
  {
    var r := Ascending(set id | id in db.checks && db.checks[id].state == Evaluating
                             && (run.Some? ==> db.checks[id].run == run.value));
    assert forall i | 0 <= i < |r| :: r[i] in r;
    r
  }

  function ActiveReviewIds(db: Db, run: Option<Id>): (r: seq<Id>)
    ensures HasReviews(db, r)
    ensures forall id :: id in r <==>
              id in db.reviews && Active(db.reviews[id].state) && (run.Some? ==> db.reviews[id].run == run.value)
  {
    var r := Ascending(set id | id in db.reviews && Active(db.reviews[id].state)
                             && (run.Some? ==> db.reviews[id].run == run.value));
    assert forall i | 0 <= i < |r| :: r[i] in r;
    r
  }

  // ---- entity changes ----

  function Finish(c: Check, state: CheckState, reason: string): Check {
    c.(state := state, reason := reason, revision := c.revision + 1)
  }

  function Expire(v: Review): Review {
    v.(state := RExpired, revision := v.revision + 1, owner := None, leaseUntilMs := None)
  }

  function Reopen(v: Review): Review {
    v.(state := ROpen, revision := v.revision + 1, owner := None, leaseUntilMs := None)
  }

  function Halt(r: Run, state: RunState, reason: string): Run {
    r.(state := state, pauseReason := Some(reason), revision := r.revision + 1)
  }

  ghost predicate HasChecks(db: Db, ids: seq<Id>) { forall i | 0 <= i < |ids| :: ids[i] in db.checks }
  ghost predicate HasReviews(db: Db, ids: seq<Id>) { forall i | 0 <= i < |ids| :: ids[i] in db.reviews }
  ghost predicate HasRuns(db: Db, ids: seq<Id>) { forall i | 0 <= i < |ids| :: ids[i] in db.runs }

  /** One CheckFinalized per check, in the order given. */
  function FinishAll(db: Db, now: nat, ids: seq<Id>, state: CheckState, reason: string): (r: Db)
    requires HasChecks(db, ids)
    ensures KeepsRest(db, r) && r.runs == db.runs && r.reviews == db.reviews
    ensures db.checks.Keys <= r.checks.Keys
    decreases |ids|
  {
    if ids == [] then db else
      FinishAll(Put(db, now, CheckFinalized, ACheck(Finish(db.checks[ids[0]], state, reason))),
                now, ids[1..], state, reason)
  }

  /** One ReviewExpired per review, in the order given. */
  function ExpireAll(db: Db, now: nat, ids: seq<Id>): (r: Db)
    requires HasReviews(db, ids)
    ensures KeepsRest(db, r) && r.runs == db.runs && r.checks == db.checks
    ensures db.reviews.Keys <= r.reviews.Keys
    decreases |ids|
  {
    if ids == [] then db else
      ExpireAll(Put(db, now, ReviewExpired, AReview(Expire(db.reviews[ids[0]]))), now, ids[1..])
  }

  function StaleChecks(db: Db, now: nat, run: Id): Db {
    FinishAll(db, now, EvaluatingIds(db, Some(run)), Stale, "STALE")
  }

  function ExpireReviews(db: Db, now: nat, run: Id): Db {
    ExpireAll(db, now, ActiveReviewIds(db, Some(run)))
  }

  // ---- system.drain, policy.activate ----

  function Drain(db: Db, host: Host, now: nat): Plan {
    if host.state == Draining then Answer(Changed("", 0, "DRAINING"))
    else
      var d := Put(db, now, HostDraining, AHost(host.(state := Draining)));
      Commit(Changed("", 0, "DRAINING"), FinishAll(d, now, EvaluatingIds(d, None), CExpired, "DRAIN"), Draining)
  }

  /** The runs of a replaced policy pause; their checks go stale and their reviews expire. */
  function ReplaceAll(db: Db, now: nat, ids: seq<Id>): (r: Db)
    requires HasRuns(db, ids)
    ensures KeepsRest(db, r)
    decreases |ids|
  {
    if ids == [] then db else
      var d1 := Put(db, now, RunPaused, ARun(Halt(db.runs[ids[0]], Paused, "POLICY_REPLACED")));
      ReplaceAll(ExpireReviews(StaleChecks(d1, now, ids[0]), now, ids[0]), now, ids[1..])
  }

  /** Every monitor's artifact is an installed one for its detector. */
  predicate Installed(cfg: Config, p: Policy) {
    forall i | 0 <= i < |p.monitors| :: (p.monitors[i].detector, p.monitors[i].artifact) in cfg.installed
  }

  function Activate(cfg: Config, db: Db, host: HostState, now: nat, sp: Signed<Policy>, expected: Counter): Plan {
    var p, active := sp.body, ActivePolicy(db);
    if !PolicyConstraints(p) || !sp.valid || p.tenant != cfg.tenant || !Installed(cfg, p) then Refuse(PolicyInvalid)
    else if active.None? && (expected != 0 || p.generation != 1 || p.predecessor.Some?) then Refuse(PolicyStale)
    else if active.Some? && (expected != active.value.generation || p.generation != active.value.generation + 1
                             || p.predecessor != Some(OfPolicy(active.value))) then Refuse(PolicyStale)
    else
      var d := Put(db.(policies := db.policies + [p]), now, PolicyActivated, APolicy(p));
      Commit(Changed(p.id, p.generation, "ACTIVE"), ReplaceAll(d, now, OpenRunIds(d)), host)
  }

  // ---- runs.open, runs.control ----

  function Start(cfg: Config, db: Db, host: HostState, now: nat, p: Principal, q: Request): Plan
    requires q.OpenRun?
  {
    var live := |set id | id in db.runs && db.runs[id].state in {Open, Paused}|;
    if q.id in db.runs then Refuse(StateConflict)
    else if q.source !in cfg.sources then Refuse(NotFound)
    else if cfg.sources[q.source].runtime != p.id then Refuse(Forbidden)
    else if cfg.sources[q.source].epoch != q.sourceEpoch || cfg.sources[q.source].profile != q.profile
    then Refuse(StateConflict)
    else if q.profile !in cfg.certified then Refuse(AdapterUnavailable)
    else if q.mode == Guarded && q.profile == "runtime-guard/1" && cfg.lab then Refuse(AdapterUnavailable)
    else if ActivePolicy(db).None? || OfPolicy(ActivePolicy(db).value) != q.policyDigest then Refuse(PolicyStale)
    else if live >= RUN_TOTAL then Refuse(Capacity)
    else
      var r := Run(q.id, 1, q.source, q.sourceEpoch, p.id, q.guardEpoch, q.boot, q.mode, q.profile, Open,
                   q.policyDigest, EMPTY_HEAD, None, None, FRESH, None);
      Commit(Changed(q.id, 1, "OPEN"), Put(db, now, RunOpened, ARun(r)), host)
  }

  /** Why a run may not be resumed, if anything stands in the way. */
  function ResumeFault(db: Db, now: Counter, r: Run): Option<Code> {
    var active, last := ActivePolicy(db), Latest(db, r.id);
    if r.state != Paused then Some(StateConflict)
    else if active.None? || r.policy != OfPolicy(active.value) then Some(PolicyStale)
    else if last.None? then Some(SourceGap)
    else if last.value.pos != r.cursor.pos || OfObservation(last.value) != r.cursor.hash then Some(SourceGap)
    else if SatSub(now, last.value.cutMs) >= active.value.freshnessMs then Some(SourceStale)
    else None
  }

  function Control(db: Db, host: HostState, now: Counter, p: Principal, id: Id, expected: nat, action: RunAction,
                   reason: string): Plan
  {
    if id !in db.runs then Refuse(NotFound)
    else
      var r := db.runs[id];
      var operator, owner := Operator in p.roles, Runtime in p.roles && r.runtime == p.id;
      if !(operator || (action != Resume && owner)) then Refuse(Forbidden)
      else if r.revision != expected then Refuse(RevisionConflict)
      else match action
        case Pause =>
          if r.state != Open then Refuse(StateConflict)
          else
            var r2 := Halt(r, Paused, reason);
            Commit(Changed(id, r2.revision, "PAUSED"), StaleChecks(Put(db, now, RunPaused, ARun(r2)), now, id), host)
        case Resume =>
          if ResumeFault(db, now, r).Some? then Refuse(ResumeFault(db, now, r).value)
          else
            var r2 := r.(state := Open, pauseReason := None, revision := r.revision + 1);
            Commit(Changed(id, r2.revision, "OPEN"), Put(db, now, RunResumed, ARun(r2)), host)
        case Close =>
          if r.state == Closed then Refuse(StateConflict)
          else
            var r2 := Halt(r, Closed, reason);
            var d := Put(db, now, RunClosed, ARun(r2));
            Commit(Changed(id, r2.revision, "CLOSED"),
                   ExpireReviews(FinishAll(d, now, EvaluatingIds(d, Some(id)), Cancelled, "CANCELLED"), now, id), host)
  }

  // ---- observations.append ----

  function CodeName(c: Code): string {
    match c case SourceGap => "SOURCE_GAP" case SourceFork => "SOURCE_FORK" case _ => "COUNTER_ROLLBACK"
  }

  function PauseSource(db: Db, host: HostState, now: nat, r: Run, c: Code): Plan {
    Commit(Refused(c), StaleChecks(Put(db, now, RunPaused, ARun(Halt(r, Paused, CodeName(c)))), now, r.id), host)
  }

  function Quarantine(db: Db, host: HostState, now: nat, r: Run, c: Code): Plan {
    var d := Put(db, now, RunQuarantined, ARun(Halt(r, Quarantined, CodeName(c))));
    Commit(Refused(c), ExpireReviews(StaleChecks(d, now, r.id), now, r.id), host)
  }

  /** Checks on an observation that carries the next sequence number: the refusal and whether it quarantines. */
  datatype Admission = Admit | Decline(code: Code) | Isolate(code: Code)

  function Admissible(db: Db, now: Counter, r: Run, o: Observation): Admission {
    var last, w := Latest(db, r.id), o.snapshot.window;
    if o.prev != r.cursor.hash then Isolate(SourceFork)
    else if o.cutMs > now then Decline(ClockFault)
    else if r.lastCutMs.Some? && o.cutMs < r.lastCutMs.value then Isolate(CounterRollback)
    else if last.Some? && o.snapshot.committed < last.value.snapshot.committed then Isolate(CounterRollback)
    else if w.Some? && w.value.startMs % WINDOW_MS != 0 then Decline(SchemaInvalid)
    else if w.Some? && w.value.startMs + WINDOW_MS > o.cutMs then Decline(SchemaInvalid)
    else if w.Some? && (r.id, w.value.startMs as nat) in db.windows
            && db.windows[(r.id, w.value.startMs as nat)].Some?
            && db.windows[(r.id, w.value.startMs as nat)].value != w.value.counts then Isolate(SourceFork)
    else Admit
  }

  /** The accepted observation, its window if that start is new, and the run with its cursor moved. */
  function Accept(db: Db, now: Counter, r: Run, o: Observation): Db {
    var w := o.snapshot.window;
    var key := (r.id, if w.Some? then w.value.startMs as nat else 0);
    var d := db.(observations := db.observations[r.id := ObservationsOf(db, r.id) + [o]],
                 windows := if w.Some? && key !in db.windows then db.windows[key := Some(w.value.counts)]
                     else db.windows);
    Put(d, now, ObservationAccepted, ARun(Advanced(r, now, o)))
  }

  function Advanced(r: Run, now: Counter, o: Observation): Run {
    r.(cursor := Head(o.pos, OfObservation(o)), lastCutMs := Some(o.cutMs), lastReceivedMs := Some(now),
       revision := r.revision + 1)
  }

  function Observe(cfg: Config, db: Db, host: HostState, now: Counter, p: Principal, so: Signed<Observation>): Plan {
    var o := so.body;
    if o.run !in db.runs then Refuse(NotFound)
    else
      var r := db.runs[o.run];
      if r.runtime != p.id then Refuse(Forbidden)
      else if r.state in {Closed, Quarantined} then Refuse(StateConflict)
      else if o.source != r.source || o.epoch != r.sourceEpoch || o.boot != r.boot then Refuse(SourceBinding)
      else if o.source !in cfg.sources then Refuse(NotFound)
      else if !so.valid then Refuse(SignatureInvalid)
      else if o.pos == r.cursor.pos then
        if OfObservation(o) == r.cursor.hash then Answer(Appended(false, r.cursor, r.revision))
        else Quarantine(db, host, now, r, SourceFork)
      else if o.pos < r.cursor.pos then
        if ByRef(db, RefOf(o)).Some? then Answer(Appended(false, r.cursor, r.revision))
        else Quarantine(db, host, now, r, SourceFork)
      else if o.pos > r.cursor.pos + 1 then PauseSource(db, host, now, r, SourceGap)
      else match Admissible(db, now, r, o)
        case Isolate(c) => Quarantine(db, host, now, r, c)
        case Decline(c) => Refuse(c)
        case Admit =>
          var r2 := Advanced(r, now, o);
          Commit(Appended(true, r2.cursor, r2.revision), Accept(db, now, r, o), host)
  }

  // ---- checks.create, checks.cancel ----

  /** The supplied-review predicate shared by admission and finalization, without the findings. */
  predicate Covers(v: Review, now: nat, run: Id, intent: Intent, policy: Digest, guardEpoch: Counter, total: nat) {
    && v.state == Accepted
    && v.acceptedUntilMs.Some? && now < v.acceptedUntilMs.value
    && v.basis.Some?
    && v.basis.value.run == run
    && v.basis.value.intent == OfIntent(intent)
    && v.basis.value.policy == policy
    && v.basis.value.guardEpoch == guardEpoch
    && v.basis.value.targetRevision == intent.targetRevision
    && total <= v.basis.value.maxTotal
  }

  function RequiredMonitors(ms: seq<Monitor>): seq<Monitor> {
    if ms == [] then [] else
      RequiredMonitors(ms[..|ms| - 1]) + if Required(ms[|ms| - 1]) then [ms[|ms| - 1]] else []
  }

  /** One pending slot per required monitor. */
  function PendingSlots(ms: seq<Monitor>, now: nat): (r: map<Id, MonitorSlot>)
    ensures forall m | m in r :: r[m].state == Pending
  {
    if ms == [] then map[] else
      PendingSlots(ms[..|ms| - 1], now)[ms[|ms| - 1].id := MonitorSlot(now + ms[|ms| - 1].deadlineMs, Pending, None)]
  }

  function Jobs(check: Id, ms: seq<Monitor>): set<(Id, Id)> { set i | 0 <= i < |ms| :: (check, ms[i].id) }

  function Latched(db: Db, run: Id, action: Id): bool {
    (run, action) in db.actions && db.actions[(run, action)].rejected
  }

  /** The reason `checks.create` is refused, in the order the handler looks. */
  function CreateFault(db: Db, now: Counter, p: Principal, q: Request): Option<Code>
    requires q.CreateCheck?
  {
    if q.run !in db.runs then Some(NotFound)
    else
      var r, o, active := db.runs[q.run], ByRef(db, q.ref), ActivePolicy(db);
      if r.runtime != p.id then Some(Forbidden)
      else if q.id in db.checks then Some(StateConflict)
      else if r.state != Open then Some(StateConflict)
      else if o.None? then Some(NotFound)
      else if o.value.run != q.run then Some(SourceBinding)
      else if active.None? || r.policy != OfPolicy(active.value) then Some(PolicyStale)
      else if SatSub(now, o.value.cutMs) >= active.value.freshnessMs then Some(SourceStale)
      else if q.intent.targetRevision != o.value.snapshot.targetRevision then Some(TargetStale)
      else if (q.run, q.intent.action) in db.actions
          && db.actions[(q.run, q.intent.action)].intent != OfIntent(q.intent)
      then Some(IdempotencyConflict)
      else if q.review.Some? && q.review.value !in db.reviews then Some(NotFound)
      else if q.review.Some? && !Covers(db.reviews[q.review.value], now, q.run, q.intent, r.policy, r.guardEpoch,
                                        SpendTotal(o.value.snapshot, q.intent.cost)) then Some(ReviewStale)
      else if |EvaluatingIds(db, None)| >= CHECK_TOTAL || |EvaluatingIds(db, Some(q.run))| >= CHECK_PER_RUN
      then Some(Capacity)
      else None
  }

  /** A new check's slots, its jobs, and what its action is bound to. */
  function Registered(db: Db, q: Request, ms: seq<Monitor>, now: nat, latched: bool): Db
    requires q.CreateCheck?
  {
    db.(slots := db.slots[q.id := PendingSlots(ms, now)], outbox := db.outbox + Jobs(q.id, ms),
        actions := db.actions[(q.run, q.intent.action) := Binding(OfIntent(q.intent), latched)])
  }

  function Create(db: Db, host: HostState, now: Counter, p: Principal, q: Request): Plan
    requires q.CreateCheck?
  {
    var fault := CreateFault(db, now, p, q);
    if fault.Some? then Refuse(fault.value)
    else
      var pol := ActivePolicy(db).value;
      var c := Check(q.id, 1, q.run, q.intent, q.ref, OfPolicy(pol), Evaluating, now, now + pol.evaluationMs, [],
                     q.review, None, "PENDING");
      var ms, latched := RequiredMonitors(pol.monitors), Latched(db, q.run, q.intent.action);
      var d1 := Put(db, now, CheckStarted, ACheck(c));
      var d2 := Registered(d1, q, ms, now, latched);
      if latched then
        Commit(Changed(q.id, 2, "DENY"), Put(d2, now, CheckFinalized, ACheck(Finish(c, Deny, "REVIEW_REJECTED"))), host)
      else
        Commit(Changed(q.id, 1, "EVALUATING"), d2, host)
  }

  function Cancel(db: Db, host: HostState, now: nat, p: Principal, id: Id, expected: nat): Plan {
    if id !in db.checks then Refuse(NotFound)
    else
      var c := db.checks[id];
      if c.run !in db.runs then Refuse(AuditUnavailable)
      else if !(Operator in p.roles || db.runs[c.run].runtime == p.id) then Refuse(Forbidden)
      else if c.revision != expected then Refuse(RevisionConflict)
      else if c.state != Evaluating then Refuse(StateConflict)
      else
        Commit(Changed(id, c.revision + 1, "CANCELLED"),
               Put(db, now, CheckFinalized, ACheck(Finish(c, Cancelled, "CANCELLED"))), host)
  }

  // ---- reviews.claim, reviews.resolve ----

  /** Boundary first: the expiry is committed and the caller is told its lease is gone. */
  function ExpireThenFault(db: Db, host: HostState, now: nat, v: Review): Plan {
    Commit(Refused(LeaseExpired), Put(db, now, ReviewExpired, AReview(Expire(v))), host)
  }

  function ReleaseThenFault(db: Db, host: HostState, now: nat, v: Review): Plan {
    Commit(Refused(LeaseExpired), Put(db, now, ReviewReleased, AReview(Reopen(v))), host)
  }

  function OpenReviews(db: Db, ids: seq<Id>): (r: seq<Review>)
    requires HasReviews(db, ids)
    ensures forall v :: v in r ==> v.state == ROpen && exists i | 0 <= i < |ids| :: db.reviews[ids[i]] == v
  {
    if ids == [] then [] else
      OpenReviews(db, ids[..|ids| - 1]) +
      if db.reviews[ids[|ids| - 1]].state == ROpen then [db.reviews[ids[|ids| - 1]]] else []
  }

  function NextOpen(db: Db): Option<Review> {
    Queue.NextOpen(OpenReviews(db, Ascending(db.reviews.Keys)), db.cursors)
  }

  function RunPolicy(db: Db, run: Id): Option<Policy> {
    if run in db.runs then PolicyOf(db, db.runs[run].policy) else None
  }

  function ClaimedBy(v: Review, p: Principal, now: nat, lease: nat): Review {
    v.(state := Claimed, owner := Some(p.id), leaseUntilMs := Some(Min(now + lease, v.dueMs)),
       revision := v.revision + 1)
  }

  function Claim(db: Db, host: HostState, now: Counter, p: Principal, named: Option<Id>, expected: Option<nat>): Plan {
    if Found(db, named).None? then Refuse(NotFound) else ClaimThis(db, host, now, p, Found(db, named).value, expected)
  }

  /** The review a claim is about: the one it names, or the next in turn. */
  function Found(db: Db, named: Option<Id>): Option<Review> {
    if named.None? then NextOpen(db) else if named.value in db.reviews then Some(db.reviews[named.value]) else None
  }

  function ClaimThis(db: Db, host: HostState, now: Counter, p: Principal, v: Review, expected: Option<nat>): Plan {
    var pol := RunPolicy(db, v.run);
    if expected.Some? && v.revision != expected.value then Refuse(RevisionConflict)
    else if pol.None? then Refuse(ArtifactUnavailable)
    else if now >= v.dueMs then ExpireThenFault(db, host, now, v)
    else if !(v.state == ROpen || (v.state == Claimed && v.owner == Some(p.id))) then Refuse(StateConflict)
    else
      var v2 := ClaimedBy(v, p, now, pol.value.claimLeaseMs);
      var d := Put(db, now, ReviewClaimed, AReview(v2));
      Commit(Changed(v.id, v2.revision, "CLAIMED"), Served(d, v), host)
  }

  /** The queue of this level goes on from the run just served. */
  function Served(db: Db, v: Review): Db { db.(cursors := db.cursors[Queue.Rank(v.level) := v.run]) }

  predicate Legal(v: Review, action: ReviewAction) {
    v.state == Claimed &&
    match action
    case AcceptRisk => v.kind == Blocking
    case Reject => v.kind == Blocking
    case Annotate => v.kind == Trailing
    case _ => true
  }

  function Resolved(v: Review, action: ReviewAction, now: nat, acceptMs: nat, wake: Option<Counter>): Review {
    match action
    case AcceptRisk => v.(state := Accepted, acceptedUntilMs := Some(Min(now + acceptMs, v.dueMs)))
    case Reject => v.(state := Rejected)
    case Annotate => v.(state := RClosed)
    case Release => v.(state := ROpen, owner := None, leaseUntilMs := None)
    case Defer => v.(state := Deferred, owner := None, leaseUntilMs := None,
                     wakeMs := if wake.Some? then Some(wake.value as nat) else None)
  }

  function ResolveKind(action: ReviewAction): Kind {
    match action
    case AcceptRisk => ReviewAccepted case Reject => ReviewRejected case Annotate => ReviewClosed
    case Release => ReviewReleased case Defer => ReviewDeferred
  }

  function ReviewStateName(s: ReviewState): string {
    match s
    case ROpen => "OPEN" case Claimed => "CLAIMED" case Deferred => "DEFERRED" case Accepted => "ACCEPTED"
    case Consumed => "CONSUMED" case Rejected => "REJECTED" case RClosed => "CLOSED" case RExpired => "EXPIRED"
  }

  /** Rejecting a blocking review latches its check's action for the run. */
  function LatchRejected(db: Db, v: Review, action: ReviewAction): Db {
    if action == Reject && v.kind == Blocking && v.check.Some? && v.check.value in db.checks then
      var key := (v.run, db.checks[v.check.value].intent.action);
      if key in db.actions then db.(actions := db.actions[key := db.actions[key].(rejected := true)]) else db
    else db
  }

  function Resolve(db: Db, host: HostState, now: nat, p: Principal, q: Request): Plan
    requires q.ResolveReview?
  {
    if q.id !in db.reviews then Refuse(NotFound)
    else
      var v := db.reviews[q.id];
      if v.revision != q.expected then Refuse(RevisionConflict)
      else if now >= v.dueMs then ExpireThenFault(db, host, now, v)
      else if v.state == Claimed && v.leaseUntilMs.Some? && now >= v.leaseUntilMs.value
      then ReleaseThenFault(db, host, now, v)
      else if v.state == Claimed && v.owner != Some(p.id) then Refuse(Forbidden)
      else if !Legal(v, q.resolution) then Refuse(StateConflict)
      else if q.resolution == Defer && (q.wakeMs.None? || !(now < q.wakeMs.value < v.dueMs)) then Refuse(SchemaInvalid)
      else
        var pol := RunPolicy(db, v.run);
        if q.resolution == AcceptRisk && pol.None? then Refuse(ArtifactUnavailable)
        else
          var acceptMs := if pol.Some? then pol.value.reviewAcceptMs else 0;
          var v2 := Resolved(v, q.resolution, now, acceptMs, q.wakeMs)
                    .(revision := v.revision + 1, resolution := Some(q.reason), resolvedBy := Some(p.id));
          var d := Put(db, now, ResolveKind(q.resolution), AReview(v2));
          Commit(Changed(q.id, v2.revision, ReviewStateName(v2.state)), LatchRejected(d, v, q.resolution), host)
  }

  // ---- dispatch ----

  predicate RoleAllowed(p: Principal, q: Request) {
    match q
    case DrainHost => Operator in p.roles
    case ActivatePolicy(_, _) => Operator in p.roles
    case ControlRun(_, _, _, _) => Operator in p.roles || Runtime in p.roles
    case ClaimReview(_, _) => Reviewer in p.roles
    case ResolveReview(_, _, _, _, _) => Reviewer in p.roles
    case _ => Runtime in p.roles
  }

  /** The mutations that only settle work, still served while draining. */
  predicate DrainingAllowed(q: Request) {
    q.ControlRun? || q.CancelCheck? || q.ResolveReview? || q.DrainHost?
  }

  function Handle(cfg: Config, db: Db, host: Host, now: Counter, p: Principal, q: Request): Plan {
    match q
    case DrainHost => Drain(db, host, now)
    case ActivatePolicy(sp, e) => Activate(cfg, db, host.state, now, sp, e)
    case OpenRun(_, _, _, _, _, _, _, _) => Start(cfg, db, host.state, now, p, q)
    case ControlRun(id, e, a, why) => Control(db, host.state, now, p, id, e, a, why)
    case Append(so) => Observe(cfg, db, host.state, now, p, so)
    case CreateCheck(_, _, _, _, _) => Create(db, host.state, now, p, q)
    case CancelCheck(id, e) => Cancel(db, host.state, now, p, id, e)
    case ClaimReview(named, e) => Claim(db, host.state, now, p, named, e)
    case ResolveReview(_, _, _, _, _) => Resolve(db, host.state, now, p, q)
  }
}
