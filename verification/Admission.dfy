/** What resuming a run, appending an observation, and creating or cancelling a check must do, in every state the
    invariant allows: when each is taken, when it is refused, and when a run must halt for what its source said. */
module Admission {
  import opened Basics
  import opened Ids
  import opened Records
  import opened Store
  import opened Detect
  import opened Protocol
  import opened Timers
  import opened Safety
  import opened Invariants
  import opened Steps
  import opened Effects

  lemma InvIsKeyed(db: Db)
    requires Inv(db)
    ensures KeyedRows(db)
  {
    hide Kept, PoliciesOk, RunsOk, StreamsOk, ChecksOk, ReviewsOk, ClearsOk;
    Keyed(db);
  }

  /** The accepted stream of a run in a state of the invariant. */
  lemma StreamIs(db: Db, id: Id)
    requires Inv(db) && id in db.runs
    ensures StreamOk(db.runs[id], ObservationsOf(db, id)) && db.runs[id].id == id
  {
    hide Kept, PoliciesOk, RunsOk, ChecksOk, ReviewsOk, ClearsOk, StreamOk;
    Keyed(db);
  }

  /** The digest the next observation must name: that of the last accepted one. */
  function LastDigest(os: seq<Observation>): Digest { if os == [] then ZeroHash else OfObservation(os[|os| - 1]) }

  // ---- runs.control: resume ----

  /** A run resumes exactly if an operator asks, it is PAUSED under the active policy, and the last observation
      accepted from its source is still fresh. It is then OPEN again and nothing else moves. */
  lemma ResumeDoes(db: Db, host: HostState, now: Counter, p: Principal, id: Id, expected: nat, why: string)
    requires Inv(db)
    ensures var plan, os := Control(db, host, now, p, id, expected, Resume, why), ObservationsOf(db, id);
            && (plan.Commit? <==>
                  && id in db.runs && Operator in p.roles && db.runs[id].revision == expected
                  && db.runs[id].state == Paused
                  && db.policies != [] && db.runs[id].policy == OfPolicy(db.policies[|db.policies| - 1])
                  && os != [] && Fresh(now, os[|os| - 1].cutMs, db.policies[|db.policies| - 1].freshnessMs))
            && (plan.Commit? ==>
                  && plan.host == host && plan.out == Changed(id, expected + 1, "OPEN") && KeepsRest(db, plan.db)
                  && plan.db.checks == db.checks && plan.db.reviews == db.reviews
                  && plan.db.runs == db.runs[id := db.runs[id].(state := Open, pauseReason := None,
                                                                revision := expected + 1)])
  {
    hide Inv, Put, FinishAll, ExpireAll;
    if id in db.runs {
      StreamIs(db, id);
      if ObservationsOf(db, id) != [] { LastFits(db.runs[id], ObservationsOf(db, id)); }
      var r := db.runs[id].(state := Open, pauseReason := None, revision := db.runs[id].revision + 1);
      PutFrame(db, now, RunResumed, ARun(r));
    }
  }

  lemma LastFits(r: Run, os: seq<Observation>)
    requires StreamOk(r, os) && os != []
    ensures os[|os| - 1].pos == r.cursor.pos == |os| && OfObservation(os[|os| - 1]) == r.cursor.hash
  {
    assert LinkOk(r, os, |os| - 1);
  }

  // ---- observations.append ----

  /** A validly signed observation for a live run, from its runtime, source, epoch and boot. */
  predicate Addressed(cfg: Config, db: Db, p: Principal, so: Signed<Observation>) {
    var o := so.body;
    && so.valid && o.run in db.runs && o.source in cfg.sources
    && var r := db.runs[o.run];
       && r.runtime == p.id && (r.state == Open || r.state == Paused)
       && o.source == r.source && o.epoch == r.sourceEpoch && o.boot == r.boot
  }

  /** The request ends in `code`, and commits that the run is QUARANTINED for it: its EVALUATING checks are STALE, its
      active reviews EXPIRED, and nothing else has moved. */
  ghost predicate Isolates(db: Db, plan: Plan, host: HostState, id: Id, code: Code, why: string) {
    && plan.Commit? && plan.out == Refused(code) && plan.host == host
    && HaltsOne(db, plan.db, id, Quarantined, why, Stale, "STALE")
    && ReviewsExpire(db.reviews, plan.db.reviews, Some({id}))
  }

  /** ... or that the run is PAUSED: its reviews wait on. */
  ghost predicate PausesFor(db: Db, plan: Plan, host: HostState, id: Id, code: Code, why: string) {
    && plan.Commit? && plan.out == Refused(code) && plan.host == host
    && HaltsOne(db, plan.db, id, Paused, why, Stale, "STALE") && plan.db.reviews == db.reviews
  }

  lemma QuarantineDoes(db: Db, host: HostState, now: nat, id: Id, c: Code)
    requires KeyedRows(db) && id in db.runs && c in {SourceFork, CounterRollback}
    ensures Isolates(db, Quarantine(db, host, now, db.runs[id], c), host, id, c,
                     if c == SourceFork then "SOURCE_FORK" else "COUNTER_ROLLBACK")
  {
    hide Put, FinishAll, ExpireAll, HaltsOne, ReviewsExpire;
    HaltedWithAll(db, now, RunQuarantined, id, Quarantined, CodeName(c), Stale, "STALE");
  }

  lemma PauseSourceDoes(db: Db, host: HostState, now: nat, id: Id)
    requires KeyedRows(db) && id in db.runs
    ensures PausesFor(db, PauseSource(db, host, now, db.runs[id], SourceGap), host, id, SourceGap, "SOURCE_GAP")
  {
    hide Put, FinishAll, HaltsOne;
    HaltedWithChecks(db, now, RunPaused, id, Paused, "SOURCE_GAP", Stale, "STALE");
  }

  lemma InStreamMeans(r: Run, os: seq<Observation>, o: Observation)
    requires StreamOk(r, os) && o in os
    ensures 1 <= o.pos <= |os| && os[o.pos as int - 1] == o
  {
    var i :| 0 <= i < |os| && os[i] == o;
    assert LinkOk(r, os, i);
  }

  /** Whatever a source repeats is acknowledged exactly if it is the very observation that was accepted; anything else
      at or behind the cursor is a fork and quarantines the run. Past the next position there is a gap, and the run
      pauses. */
  lemma OutOfTurn(cfg: Config, db: Db, host: HostState, now: Counter, p: Principal, so: Signed<Observation>)
    requires Inv(db) && Addressed(cfg, db, p, so)
    ensures var o, plan := so.body, Observe(cfg, db, host, now, p, so);
            var r, os := db.runs[o.run], ObservationsOf(db, o.run);
            && (o.pos <= |os| ==>
                  if o in os then plan == Answer(Appended(false, r.cursor, r.revision))
                  else Isolates(db, plan, host, o.run, SourceFork, "SOURCE_FORK"))
            && (o.pos > |os| + 1 ==> PausesFor(db, plan, host, o.run, SourceGap, "SOURCE_GAP"))
  {
    hide Inv, Quarantine, PauseSource, Admissible, Accept, Isolates, PausesFor;
    var o := so.body;
    var r, os := db.runs[o.run], ObservationsOf(db, o.run);
    InvIsKeyed(db);
    StreamIs(db, o.run);
    QuarantineDoes(db, host, now, o.run, SourceFork);
    PauseSourceDoes(db, host, now, o.run);
    if o in os { InStreamMeans(r, os, o); }
    if os != [] { LastFits(r, os); }
  }

  /** The counts recorded for that window of the run are other ones. */
  predicate OtherCounts(db: Db, run: Id, w: Option<Window>) {
    && w.Some? && (run, w.value.startMs as nat) in db.windows
    && db.windows[(run, w.value.startMs as nat)].Some?
    && db.windows[(run, w.value.startMs as nat)].value != w.value.counts
  }

  /** A window that can be: aligned to ten seconds and over by the cut. */
  predicate WindowFits(w: Option<Window>, cut: nat) {
    w.Some? ==> w.value.startMs % 10_000 == 0 && w.value.startMs + 10_000 <= cut
  }

  /** At the next position an observation quarantines the run if it does not name the last accepted one, takes back cut
      time or committed spend, or tells other counts of a window already told. It is refused without a trace if its cut
      lies ahead or its window cannot be. Otherwise, and only then, it joins the stream, and moves the cursor to it. */
  lemma InTurn(cfg: Config, db: Db, host: HostState, now: Counter, p: Principal, so: Signed<Observation>)
    requires Inv(db) && Addressed(cfg, db, p, so) && so.body.pos == |ObservationsOf(db, so.body.run)| + 1
    ensures var o, plan := so.body, Observe(cfg, db, host, now, p, so);
            var r, os, w := db.runs[o.run], ObservationsOf(db, o.run), o.snapshot.window;
            if o.prev != LastDigest(os) then Isolates(db, plan, host, o.run, SourceFork, "SOURCE_FORK")
            else if o.cutMs > now then plan == Refuse(ClockFault)
            else if os != [] && (o.cutMs < os[|os| - 1].cutMs
                                 || o.snapshot.committed < os[|os| - 1].snapshot.committed)
            then Isolates(db, plan, host, o.run, CounterRollback, "COUNTER_ROLLBACK")
            else if !WindowFits(w, o.cutMs) then plan == Refuse(SchemaInvalid)
            else if OtherCounts(db, o.run, w) then Isolates(db, plan, host, o.run, SourceFork, "SOURCE_FORK")
            else
              && plan.Commit? && plan.out == Appended(true, Head(o.pos, OfObservation(o)), r.revision + 1)
              && plan.host == host && Joins(db, plan.db, now, o)
  {
    hide Inv, Quarantine, PauseSource, Accept, Isolates, Joins, StreamOk;
    var o := so.body;
    InvIsKeyed(db);
    StreamIs(db, o.run);
    QuarantineDoes(db, host, now, o.run, SourceFork);
    QuarantineDoes(db, host, now, o.run, CounterRollback);
    CursorIs(db.runs[o.run], ObservationsOf(db, o.run));
    AcceptDoes(db, now, o);
  }

  lemma CursorIs(r: Run, os: seq<Observation>)
    requires StreamOk(r, os)
    ensures r.cursor == Head(|os|, LastDigest(os))
    ensures r.lastCutMs == if os == [] then None else Some(os[|os| - 1].cutMs)
  {}

  /** The stream of the run ends in `o`, a window not yet told is recorded, and the run stands where `o` put it. */
  ghost predicate Joins(db: Db, d: Db, now: Counter, o: Observation) {
    && o.run in db.runs
    && d.observations == db.observations[o.run := ObservationsOf(db, o.run) + [o]]
    && d.windows == (var w := o.snapshot.window;
                     if w.Some? && (o.run, w.value.startMs as nat) !in db.windows
                     then db.windows[(o.run, w.value.startMs as nat) := Some(w.value.counts)] else db.windows)
    && d.runs == db.runs[o.run := db.runs[o.run].(cursor := Head(o.pos, OfObservation(o)), lastCutMs := Some(o.cutMs),
                                                  lastReceivedMs := Some(now), revision := db.runs[o.run].revision + 1)]
    && d.checks == db.checks && d.reviews == db.reviews
    && KeepsRest(db.(observations := d.observations, windows := d.windows), d)
  }

  lemma AcceptDoes(db: Db, now: Counter, o: Observation)
    requires KeyedRows(db) && o.run in db.runs
    ensures Joins(db, Accept(db, now, db.runs[o.run], o), now, o)
  {
    hide Put;
    var r, w := db.runs[o.run], o.snapshot.window;
    var key := (r.id, if w.Some? then w.value.startMs as nat else 0);
    var d := db.(observations := db.observations[r.id := ObservationsOf(db, r.id) + [o]],
                 windows := if w.Some? && key !in db.windows then db.windows[key := Some(w.value.counts)]
                     else db.windows);
    PutFrame(d, now, ObservationAccepted, ARun(Advanced(r, now, o)));
  }

  // ---- checks.create, checks.cancel ----

  /** The reference names an accepted observation of the run. */
  predicate Names(os: seq<Observation>, ref: Ref, i: nat) { i < |os| && RefOf(os[i]) == ref }

  /** An accepted review in its time that covers this intent of the run under this policy and guard, up to `total`. */
  predicate MayPay(v: Review, now: nat, run: Run, intent: Intent, total: nat) {
    && v.state == Accepted && v.acceptedUntilMs.Some? && now < v.acceptedUntilMs.value
    && v.basis.Some?
    && v.basis.value.run == run.id && v.basis.value.intent == OfIntent(intent) && v.basis.value.policy == run.policy
    && v.basis.value.guardEpoch == run.guardEpoch && v.basis.value.targetRevision == intent.targetRevision
    && total <= v.basis.value.maxTotal
  }

  /** Nothing else is bound to the action of this intent. */
  predicate Unbound(db: Db, q: Request)
    requires q.CreateCheck?
  {
    var k := (q.run, q.intent.action);
    k in db.actions ==> db.actions[k].intent == OfIntent(q.intent)
  }

  /** The EVALUATING checks, of one run or of all. */
  function Busy(checks: map<Id, Check>, of: Option<set<Id>>): set<Id> {
    set id | id in checks && checks[id].state == Evaluating && Of(of, checks[id].run)
  }

  /** The check is created exactly if its id is new, its run is OPEN under the active policy and this caller's, its
      observation was accepted for the run, is fresh and of the intended target revision, its action is free or bound
      to the same intent, the review it brings covers it, and fewer than 128 checks are EVALUATING, 16 of the run. */
  lemma CreateWhen(db: Db, host: HostState, now: Counter, p: Principal, q: Request, i: nat)
    requires Inv(db) && q.CreateCheck? && Names(ObservationsOf(db, q.run), q.ref, i)
    ensures var os := ObservationsOf(db, q.run);
            && q.run in db.runs
            && (Create(db, host, now, p, q).Commit? <==>
                  && q.id !in db.checks
                  && db.runs[q.run].runtime == p.id && db.runs[q.run].state == Open
                  && db.policies != [] && db.runs[q.run].policy == OfPolicy(db.policies[|db.policies| - 1])
                  && Fresh(now, os[i].cutMs, db.policies[|db.policies| - 1].freshnessMs)
                  && q.intent.targetRevision == os[i].snapshot.targetRevision && Unbound(db, q)
                  && (q.review.Some? ==>
                        && q.review.value in db.reviews
                        && MayPay(db.reviews[q.review.value], now, db.runs[q.run], q.intent,
                                  SpendTotal(os[i].snapshot, q.intent.cost)))
                  && |Busy(db.checks, None)| < 128 && |Busy(db.checks, Some({q.run}))| < 16)
  {
    hide Inv, Put, Registered, SpendTotal;
    StreamHasRun(db, q.run);
    StreamIs(db, q.run);
    NamedIs(db, q.run, q.ref, i);
    BusyAre(db, None);
    BusyAre(db, Some(q.run));
  }

  lemma StreamHasRun(db: Db, id: Id)
    requires Inv(db) && ObservationsOf(db, id) != []
    ensures id in db.runs
  {
    hide Kept, PoliciesOk, RunsOk, ChecksOk, ReviewsOk, ClearsOk, StreamOk;
  }

  lemma NamedIs(db: Db, run: Id, ref: Ref, i: nat)
    requires run in db.runs && db.runs[run].id == run && StreamOk(db.runs[run], ObservationsOf(db, run))
    requires Names(ObservationsOf(db, run), ref, i)
    ensures ByRef(db, ref) == Some(ObservationsOf(db, run)[i]) && ObservationsOf(db, run)[i].run == run
  {
    assert LinkOk(db.runs[run], ObservationsOf(db, run), i);
  }

  lemma BusyAre(db: Db, run: Option<Id>)
    ensures |EvaluatingIds(db, run)| == |Busy(db.checks, Only(run))|
  {
    var ids := EvaluatingIds(db, run);
    EvaluatingOnce(db, run);
    assert (set id | id in ids) == Busy(db.checks, Only(run));
    AsMany(ids);
  }

  lemma {:induction false} AsMany(ids: seq<Id>)
    requires forall i, j | 0 <= i < j < |ids| :: ids[i] != ids[j]
    ensures |set id | id in ids| == |ids|
  {
    if ids != [] {
      AsMany(ids[1..]);
      assert ids == [ids[0]] + ids[1..];
      assert (set id | id in ids) == (set id | id in ids[1..]) + {ids[0]};
    }
  }

  /** No check is created on a reference that names no accepted observation of the run. */
  lemma CreateNeedsObservation(db: Db, host: HostState, now: Counter, p: Principal, q: Request)
    requires Inv(db) && q.CreateCheck? && Create(db, host, now, p, q).Commit?
    ensures exists i: nat :: Names(ObservationsOf(db, q.run), q.ref, i)
  {
    hide Inv, Put, Registered, SpendTotal, Covers, Newest;
    var o := ByRef(db, q.ref).value;
    var i :| 0 <= i < |ObservationsOf(db, q.run)| && ObservationsOf(db, q.run)[i] == o;
    assert Names(ObservationsOf(db, q.run), q.ref, i);
  }

  /** One pending slot for each blocking required monitor, until its own deadline, and no other slot. */
  ghost predicate SlotsWait(slots: map<Id, MonitorSlot>, ms: seq<Monitor>, now: nat) {
    && (forall i | 0 <= i < |ms| && ms[i].mode == Blocking && ms[i].required ::
          ms[i].id in slots && slots[ms[i].id] == MonitorSlot(now + ms[i].deadlineMs, Pending, None))
    && forall k | k in slots :: exists i | 0 <= i < |ms| :: ms[i].id == k && ms[i].mode == Blocking && ms[i].required
  }

  ghost predicate OnceNamed(ms: seq<Monitor>) { forall i, j | 0 <= i < j < |ms| :: ms[i].id != ms[j].id }

  lemma OneMoreSlot(ms: seq<Monitor>, slots: map<Id, MonitorSlot>, now: nat)
    requires ms != [] && OnceNamed(ms) && SlotsWait(slots, ms[..|ms| - 1], now)
    ensures var m := ms[|ms| - 1];
            SlotsWait(if Required(m) then slots[m.id := MonitorSlot(now + m.deadlineMs, Pending, None)] else slots, ms,
                      now)
  {
    var n := |ms| - 1;
    var next := if Required(ms[n]) then slots[ms[n].id := MonitorSlot(now + ms[n].deadlineMs, Pending, None)]
        else slots;
    forall k | k in next ensures exists i | 0 <= i < |ms| :: ms[i].id == k && ms[i].mode == Blocking && ms[i].required {
      if k in slots {
        var i :| 0 <= i < n && ms[..n][i].id == k && ms[..n][i].mode == Blocking && ms[..n][i].required;
        assert ms[i].id == k;
      } else {
        assert ms[n].id == k;
      }
    }
    assert forall i | 0 <= i < n :: ms[i] == ms[..n][i];
  }

  lemma {:induction false} PendingWait(ms: seq<Monitor>, now: nat)
    requires OnceNamed(ms)
    ensures SlotsWait(PendingSlots(RequiredMonitors(ms), now), ms, now)
  {
    hide SlotsWait, RequiredMonitors, PendingSlots;
    if ms == [] {
      NoSlots(now);
    } else {
      var pre := ms[..|ms| - 1];
      PendingWait(pre, now);
      PendingGrows(ms, now);
      OneMoreSlot(ms, PendingSlots(RequiredMonitors(pre), now), now);
    }
  }

  lemma NoSlots(now: nat)
    ensures SlotsWait(PendingSlots(RequiredMonitors([]), now), [], now)
  {}

  lemma PendingGrows(ms: seq<Monitor>, now: nat)
    requires ms != []
    ensures var m, slots := ms[|ms| - 1], PendingSlots(RequiredMonitors(ms[..|ms| - 1]), now);
            PendingSlots(RequiredMonitors(ms), now)
            == if Required(m) then slots[m.id := MonitorSlot(now + m.deadlineMs, Pending, None)] else slots
  {
    var rs := RequiredMonitors(ms);
    if Required(ms[|ms| - 1]) {
      assert rs[..|rs| - 1] == RequiredMonitors(ms[..|ms| - 1]);
    } else {
      assert rs == RequiredMonitors(ms[..|ms| - 1]);
    }
  }

  lemma {:induction false} RequiredAre(ms: seq<Monitor>)
    ensures forall m :: m in RequiredMonitors(ms) <==> m in ms && m.mode == Blocking && m.required
  {
    if ms != [] {
      RequiredAre(ms[..|ms| - 1]);
      assert ms == ms[..|ms| - 1] + [ms[|ms| - 1]];
    }
  }

  /** The job of each blocking required monitor. */
  function JobsFor(check: Id, ms: seq<Monitor>): set<(Id, Id)> {
    set m | m in ms && m.mode == Blocking && m.required :: (check, m.id)
  }

  lemma JobsAre(check: Id, ms: seq<Monitor>)
    ensures Jobs(check, RequiredMonitors(ms)) == JobsFor(check, ms)
  {
    var rs := RequiredMonitors(ms);
    RequiredAre(ms);
    forall j | j in JobsFor(check, ms) ensures j in Jobs(check, rs) {
      var m :| m in ms && m.mode == Blocking && m.required && j == (check, m.id);
      assert m in rs;
    }
    forall j | j in Jobs(check, rs) ensures j in JobsFor(check, ms) {
      var i :| 0 <= i < |rs| && j == (check, rs[i].id);
      assert rs[i] in rs;
    }
  }

  /** A rejection stands against the action. */
  predicate RejectedFor(db: Db, run: Id, action: Id) {
    (run, action) in db.actions && db.actions[(run, action)].rejected
  }

  /** The new check waits for the blocking required monitors of its policy, each with a slot and a job, and its action
      is bound to its intent; if a rejection stands against the action, the check is denied in the same transaction.
      Nothing else moves. */
  lemma CreateDoes(db: Db, host: HostState, now: Counter, p: Principal, q: Request)
    requires Inv(db) && q.CreateCheck? && Create(db, host, now, p, q).Commit?
    ensures db.policies != []
    ensures var plan, pol := Create(db, host, now, p, q), db.policies[|db.policies| - 1];
            var no := RejectedFor(db, q.run, q.intent.action);
            var c := Check(q.id, 1, q.run, q.intent, q.ref, OfPolicy(pol), Evaluating, now, now + pol.evaluationMs, [],
                           q.review, None, "PENDING");
            && plan.host == host && plan.out == Changed(q.id, if no then 2 else 1, if no then "DENY" else "EVALUATING")
            && Creates(db, plan.db, q, if no then c.(state := Deny, reason := "REVIEW_REJECTED", revision := 2) else c,
                       pol.monitors, now, no)
  {
    hide Inv, Put, RequiredMonitors, Create, Finish, Registered, Creates;
    CreatePlan(db, host, now, p, q);
    MonitorsOnce(db, db.policies[|db.policies| - 1]);
    var pol, no := db.policies[|db.policies| - 1], RejectedFor(db, q.run, q.intent.action);
    var c := Check(q.id, 1, q.run, q.intent, q.ref, OfPolicy(pol), Evaluating, now, now + pol.evaluationMs, [],
                   q.review, None, "PENDING");
    var d := Registered(Put(db, now, CheckStarted, ACheck(c)), q, RequiredMonitors(pol.monitors), now, no);
    RegisteredCreates(db, q, c, pol.monitors, now, no);
    DeniedIs(c);
    if no { DeniedCreates(db, d, q, c, pol.monitors, now); }
  }

  /** A check appears with its slots, its jobs and the binding of its action, and nothing else moves. */
  ghost predicate Creates(db: Db, d: Db, q: Request, c: Check, ms: seq<Monitor>, now: nat, rejected: bool)
    requires q.CreateCheck?
  {
    && d.runs == db.runs && d.reviews == db.reviews && d.checks == db.checks[q.id := c]
    && q.id in d.slots && d.slots == db.slots[q.id := d.slots[q.id]] && SlotsWait(d.slots[q.id], ms, now)
    && d.outbox == db.outbox + JobsFor(q.id, ms)
    && d.actions == db.actions[(q.run, q.intent.action) := Binding(OfIntent(q.intent), rejected)]
    && KeepsRest(db.(slots := d.slots, outbox := d.outbox, actions := d.actions), d)
  }

  lemma RegisteredCreates(db: Db, q: Request, c: Check, ms: seq<Monitor>, now: nat, no: bool)
    requires q.CreateCheck? && c.id == q.id && OnceNamed(ms)
    ensures Creates(db, Registered(Put(db, now, CheckStarted, ACheck(c)), q, RequiredMonitors(ms), now, no), q, c, ms,
                    now, no)
  {
    hide Put, SlotsWait, PendingSlots, RequiredMonitors, Jobs, JobsFor, OnceNamed;
    PutFrame(db, now, CheckStarted, ACheck(c));
    PendingWait(ms, now);
    JobsAre(q.id, ms);
  }

  lemma DeniedCreates(db: Db, d: Db, q: Request, c: Check, ms: seq<Monitor>, now: nat)
    requires q.CreateCheck? && c.id == q.id && Creates(db, d, q, c, ms, now, true)
    ensures Creates(db, Put(d, now, CheckFinalized, ACheck(Finish(c, Deny, "REVIEW_REJECTED"))), q,
                    Finish(c, Deny, "REVIEW_REJECTED"), ms, now, true)
  {
    hide Put, SlotsWait, JobsFor;
    PutFrame(d, now, CheckFinalized, ACheck(Finish(c, Deny, "REVIEW_REJECTED")));
  }

  lemma DeniedIs(c: Check)
    ensures Finish(c, Deny, "REVIEW_REJECTED")
            == c.(state := Deny, reason := "REVIEW_REJECTED", revision := c.revision + 1)
  {}

  lemma CreatePlan(db: Db, host: HostState, now: Counter, p: Principal, q: Request)
    requires q.CreateCheck? && Create(db, host, now, p, q).Commit?
    ensures db.policies != []
    ensures var pol, no := db.policies[|db.policies| - 1], RejectedFor(db, q.run, q.intent.action);
            var c := Check(q.id, 1, q.run, q.intent, q.ref, OfPolicy(pol), Evaluating, now, now + pol.evaluationMs, [],
                           q.review, None, "PENDING");
            var d := Registered(Put(db, now, CheckStarted, ACheck(c)), q, RequiredMonitors(pol.monitors), now, no);
            Create(db, host, now, p, q)
            == if no then Commit(Changed(q.id, 2, "DENY"), Put(d, now, CheckFinalized,
                                                               ACheck(Finish(c, Deny, "REVIEW_REJECTED"))), host)
               else Commit(Changed(q.id, 1, "EVALUATING"), d, host)
  {
    hide Put, RequiredMonitors, Registered, Finish, CreateFault;
    CreatedUnder(db, now, p, q);
  }

  lemma CreatedUnder(db: Db, now: Counter, p: Principal, q: Request)
    requires q.CreateCheck? && CreateFault(db, now, p, q).None?
    ensures db.policies != [] && ActivePolicy(db) == Some(db.policies[|db.policies| - 1])
  {
    hide Covers, RefIn, SpendTotal;
  }

  lemma MonitorsOnce(db: Db, p: Policy)
    requires Inv(db) && p in db.policies
    ensures OnceNamed(p.monitors)
  {
    hide Kept, RunsOk, StreamsOk, ChecksOk, ReviewsOk, ClearsOk;
    var i :| 0 <= i < |db.policies| && db.policies[i] == p;
    assert PolicyConstraints(db.policies[i]);
  }

  /** An EVALUATING check is cancelled by an operator or its run's runtime, and nothing else moves. */
  lemma CancelDoes(db: Db, host: HostState, now: nat, p: Principal, id: Id, expected: nat)
    requires Inv(db)
    ensures var plan := Cancel(db, host, now, p, id, expected);
            && (plan.Commit? <==>
                  && id in db.checks && db.checks[id].run in db.runs
                  && (Operator in p.roles || db.runs[db.checks[id].run].runtime == p.id)
                  && db.checks[id].revision == expected && db.checks[id].state == Evaluating)
            && (plan.Commit? ==>
                  && plan.host == host && plan.out == Changed(id, expected + 1, "CANCELLED") && KeepsRest(db, plan.db)
                  && plan.db.runs == db.runs && plan.db.reviews == db.reviews
                  && plan.db.checks == db.checks[id := db.checks[id].(state := Cancelled, reason := "CANCELLED",
                                                                      revision := expected + 1)])
  {
    hide Inv, Put;
    InvIsKeyed(db);
    if id in db.checks { PutFrame(db, now, CheckFinalized, ACheck(Finish(db.checks[id], Cancelled, "CANCELLED"))); }
  }
}
