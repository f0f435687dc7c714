/** Admission of observations and checks keeps the invariant. */
module Intake {
  import opened Basics
  import opened Ids
  import opened Records
  import opened Store
  import opened Detect
  import opened Protocol
  import opened Timers
  import opened Safety
  import opened Invariants
  import opened Steps
  import opened Handlers

  // ---- observations.append ----

  /** An admitted observation continues the run's stream. */
  lemma AdmitMeans(db: Db, now: Counter, r: Run, o: Observation)
    requires Admissible(db, now, r, o) == Admit
    ensures o.prev == r.cursor.hash && (r.lastCutMs.Some? ==> r.lastCutMs.value <= o.cutMs)
    ensures var os := ObservationsOf(db, r.id);
            os != [] ==> os[|os| - 1].snapshot.committed <= o.snapshot.committed
  {}

  lemma StreamGrows(db: Db, now: Counter, r: Run, o: Observation)
    requires StreamOk(r, ObservationsOf(db, r.id)) && Admissible(db, now, r, o) == Admit
    requires o.run == r.id && o.source == r.source && o.epoch == r.sourceEpoch && o.boot == r.boot
    requires o.pos == r.cursor.pos + 1
    ensures StreamOk(Advanced(r, now, o), ObservationsOf(db, r.id) + [o])
  {
    hide Admissible, StreamIn;
    AdmitMeans(db, now, r, o);
    var os, r2 := ObservationsOf(db, r.id), Advanced(r, now, o);
    forall i | 0 <= i < |os + [o]| ensures LinkOk(r2, os + [o], i) {
      if i < |os| { assert LinkOk(r, os, i); }
    }
  }

  lemma StreamsGrow(runs: map<Id, Run>, streams: Streams, r: Run, os: seq<Observation>)
    requires StreamsOk(runs, streams) && r.id in runs && StreamOk(r, os)
    ensures StreamsOk(runs[r.id := r], streams[r.id := os])
  {
    hide StreamOk;
  }

  lemma RefInGrows(streams: Streams, next: Streams, ref: Ref)
    requires forall run | run in streams :: run in next && streams[run] <= next[run]
    ensures RefIn(streams, ref).Some? ==> RefIn(next, ref) == RefIn(streams, ref)
  {
    if RefIn(streams, ref).Some? {
      var o := ref.hash.observation;
      assert o in streams[o.run] && streams[o.run] <= next[o.run];
    }
  }

  lemma ChecksOkStreams(db: Db, next: Streams, r: Run)
    requires ChecksOk(db.policies, db.observations, db.slots, db.runs, db.checks, {})
    requires forall run | run in db.observations :: run in next && db.observations[run] <= next[run]
    requires r.id in db.runs && r.state == db.runs[r.id].state && r.policy == db.runs[r.id].policy
    ensures ChecksOk(db.policies, next, db.slots, db.runs[r.id := r], db.checks, {})
  {
    forall id | id in db.checks ensures SlotsOk(db.policies, next, db.slots, db.checks[id]) {
      assert SlotsOk(db.policies, db.observations, db.slots, db.checks[id]);
      RefInGrows(db.observations, next, db.checks[id].observation);
    }
    hide SlotsOk;
    forall id | id in db.checks && db.checks[id].state == Evaluating
      ensures EvaluatingOk(db.runs[r.id := r], db.checks[id])
    {
      assert EvaluatingOk(db.runs, db.checks[id]);
    }
  }

  lemma RunsOkSame(policies: seq<Policy>, runs: map<Id, Run>, r: Run)
    requires RunsOk(policies, runs, {}) && r.id in runs && r.state == runs[r.id].state && r.policy == runs[r.id].policy
    ensures RunsOk(policies, runs[r.id := r], {})
  {}

  lemma ReviewsOkSame(runs: map<Id, Run>, checks: map<Id, Check>, reviews: map<Id, Review>, r: Run)
    requires ReviewsOk(runs, checks, reviews, {}) && r.id in runs && r.state == runs[r.id].state
    ensures ReviewsOk(runs[r.id := r], checks, reviews, {})
  {}

  lemma ExtendsStream(db: Db, next: Db, run: Id, o: Observation)
    requires next == db.(observations := next.observations, windows := next.windows)
    requires next.observations == db.observations[run := ObservationsOf(db, run) + [o]]
    ensures Extends(db, next)
  {}

  lemma AcceptKeeps(db: Db, now: Counter, r: Run, o: Observation)
    requires Inv(db) && r.id in db.runs && r == db.runs[r.id] && r.state in {Open, Paused}
    requires o.run == r.id && o.source == r.source && o.epoch == r.sourceEpoch && o.boot == r.boot
    requires o.pos == r.cursor.pos + 1 && Admissible(db, now, r, o) == Admit
    ensures Good(db, Accept(db, now, r, o), NONE)
  {
    hide Kept, Extends, Quiet, PoliciesOk, RunsOk, StreamsOk, StreamOk, ChecksOk, ReviewsOk, ClearsOk, Admissible;
    var r2, next := Advanced(r, now, o), Accept(db, now, r, o);
    var os := ObservationsOf(db, r.id) + [o];
    var d := db.(observations := next.observations, windows := next.windows);
    assert StreamOk(r, ObservationsOf(db, r.id)) by { StreamAt(db.runs, db.observations, r.id); }
    StreamGrows(db, now, r, o);
    StreamsGrow(db.runs, db.observations, r2, os);
    ExtendsStream(db, d, r.id, o);
    KeptSame(db, d);
    Emitted(d, now, ObservationAccepted, ARun(r2));
    ExtendsTransitive(db, d, next);
    ClearsCarry(db, next);
    GrownStreams(db, next);
    ChecksOkStreams(db, next.observations, r2);
    RunsOkSame(db.policies, db.runs, r2);
    ReviewsOkSame(db.runs, db.checks, db.reviews, r2);
  }

  lemma StreamAt(runs: map<Id, Run>, streams: Streams, id: Id)
    requires StreamsOk(runs, streams) && id in runs
    ensures StreamOk(runs[id], StreamIn(streams, id))
  {
    hide StreamOk;
  }

  lemma GrownStreams(db: Db, next: Db)
    requires Extends(db, next)
    ensures forall run | run in db.observations ::
              run in next.observations && db.observations[run] <= next.observations[run]
  {}

  lemma ObserveKeeps(cfg: Config, db: Db, host: HostState, now: Counter, p: Principal, so: Signed<Observation>)
    requires Inv(db)
    ensures Observe(cfg, db, host, now, p, so).Commit? ==> Good(db, Observe(cfg, db, host, now, p, so).db, NONE)
  {
    hide Kept, Extends, Quiet, PoliciesOk, RunsOk, StreamsOk, ChecksOk, ReviewsOk, ClearsOk, Admissible, Put, ByRef;
    Keyed(db);
    if Observe(cfg, db, host, now, p, so).Commit? {
      var o, r := so.body, db.runs[so.body.run];
      assert r.state.Open? || r.state.Paused? || r.state.Closed? || r.state.Quarantined?;
      if o.pos == r.cursor.pos || o.pos < r.cursor.pos {
        EndKeeps(db, now, RunQuarantined, r, Quarantined, CodeName(SourceFork), Stale, "STALE");
      } else if o.pos > r.cursor.pos + 1 {
        PauseKeeps(db, now, r, CodeName(SourceGap));
      } else {
        match Admissible(db, now, r, o)
        case Isolate(c) => EndKeeps(db, now, RunQuarantined, r, Quarantined, CodeName(c), Stale, "STALE");
        case Admit => AcceptKeeps(db, now, r, o);
        case Decline(c) => assert false;
      }
    }
  }

  // ---- checks.create ----

  lemma {:induction false} SlotsForRequired(ms: seq<Monitor>, now: nat)
    ensures forall i | 0 <= i < |ms| && Required(ms[i]) :: ms[i].id in PendingSlots(RequiredMonitors(ms), now)
  {
    if ms != [] {
      var pre := ms[..|ms| - 1];
      SlotsForRequired(pre, now);
      var rs := RequiredMonitors(ms);
      if Required(ms[|ms| - 1]) {
        assert rs[..|rs| - 1] == RequiredMonitors(pre);
      } else {
        assert rs == RequiredMonitors(pre);
      }
      assert forall i | 0 <= i < |pre| :: ms[i] == pre[i];
    }
  }

  lemma FreshSlotsOk(policies: seq<Policy>, streams: Streams, slots: Slots, c: Check, p: Policy, now: nat)
    requires PolicyIn(policies, c.policy) == Some(p) && RefIn(streams, c.observation).Some?
    requires RefIn(streams, c.observation).value.run == c.run
    requires SlotsIn(slots, c.id) == PendingSlots(RequiredMonitors(p.monitors), now)
    ensures SlotsOk(policies, streams, slots, c)
  {
    SlotsForRequired(p.monitors, now);
    var o := RefIn(streams, c.observation).value;
    forall i | 0 <= i < |p.monitors| ensures SlotOk(p.monitors[i], p, o, c, SlotsIn(slots, c.id)) {}
  }

  lemma ChecksOkStart(db: Db, slots: Slots, c: Check)
    requires ChecksOk(db.policies, db.observations, db.slots, db.runs, db.checks, {})
    requires c.id !in db.checks && EvaluatingOk(db.runs, c) && SlotsOk(db.policies, db.observations, slots, c)
    requires c.id in slots && slots == db.slots[c.id := slots[c.id]]
    requires forall id | id in db.checks :: db.checks[id].id == id
    ensures ChecksOk(db.policies, db.observations, slots, db.runs, db.checks[c.id := c], {})
  {
    hide SlotsOk;
    forall id | id in db.checks ensures SlotsOk(db.policies, db.observations, slots, db.checks[id]) {
      SlotsElsewhere(db.policies, db.observations, db.slots, slots, db.checks[id]);
    }
    forall id | id in db.checks && db.checks[id].state == Evaluating ensures EvaluatingOk(db.runs, db.checks[id]) {}
  }

  lemma SlotsElsewhere(policies: seq<Policy>, streams: Streams, a: Slots, b: Slots, c: Check)
    requires SlotsOk(policies, streams, a, c) && SlotsIn(a, c.id) == SlotsIn(b, c.id)
    ensures SlotsOk(policies, streams, b, c)
  {}

  lemma ReviewsOkStart(runs: map<Id, Run>, checks: map<Id, Check>, reviews: map<Id, Review>, c: Check)
    requires ReviewsOk(runs, checks, reviews, {}) && c.id !in checks
    ensures ReviewsOk(runs, checks[c.id := c], reviews, {})
  {}

  lemma ExtendsStart(db: Db, next: Db, id: Id)
    requires id !in db.checks
    requires next == db.(slots := next.slots, outbox := next.outbox, actions := next.actions, checks := next.checks,
                         audit := next.audit, history := next.history)
    requires id in next.slots && next.slots == db.slots[id := next.slots[id]] && db.audit <= next.audit
    requires forall k | k in db.actions && db.actions[k].rejected :: k in next.actions && next.actions[k].rejected
    ensures Extends(db, next)
  {
    forall k | k in db.checks && Terminal(db.checks[k].state) ensures SlotsOf(next, k) == SlotsOf(db, k) {}
  }

  /** The check, its slots, its jobs and its action binding appear together. */
  lemma StartCheck(db: Db, next: Db, now: nat, c: Check)
    requires Inv(db) && c.id !in db.checks && LegalCheck(db.checks, c) && EvaluatingOk(db.runs, c)
    requires next == Put(db, now, CheckStarted, ACheck(c)).(slots := next.slots, outbox := next.outbox,
                                                            actions := next.actions)
    requires c.id in next.slots && next.slots == db.slots[c.id := next.slots[c.id]]
    requires SlotsOk(db.policies, db.observations, next.slots, c)
    requires forall k | k in db.actions && db.actions[k].rejected :: k in next.actions && next.actions[k].rejected
    ensures Good(db, next, NONE)
  {
    hide Kept, Extends, Quiet, PoliciesOk, RunsOk, StreamsOk, ChecksOk, ReviewsOk, ClearsOk, SlotsOk, EvaluatingOk,
         LegalCheck;
    var d := Put(db, now, CheckStarted, ACheck(c));
    Keyed(db);
    EvaluatingFresh(db, c);
    Emitted(db, now, CheckStarted, ACheck(c));
    QuietFrom(db, d, next);
    KeptSame(d, next);
    ExtendsStart(db, next, c.id);
    ClearsCarry(db, next);
    ChecksOkStart(db, next.slots, c);
    ReviewsOkStart(db.runs, db.checks, db.reviews, c);
  }

  lemma EvaluatingFresh(db: Db, c: Check)
    requires c.id !in db.checks && LegalCheck(db.checks, c)
    ensures c.state == Evaluating
  {}

  lemma QuietFrom(db: Db, d: Db, next: Db)
    requires Quiet(db, d) && next.audit == d.audit
    ensures Quiet(db, next)
  {}

  /** What a check that may be created stands on. */
  lemma Creatable(db: Db, now: Counter, p: Principal, q: Request)
    requires q.CreateCheck? && CreateFault(db, now, p, q).None?
    ensures q.id !in db.checks && q.run in db.runs && db.runs[q.run].state == Open
    ensures ActivePolicy(db).Some? && db.runs[q.run].policy == OfPolicy(ActivePolicy(db).value)
    ensures PolicyIn(db.policies, OfPolicy(ActivePolicy(db).value)) == Some(ActivePolicy(db).value)
    ensures RefIn(db.observations, q.ref).Some? && RefIn(db.observations, q.ref).value.run == q.run
  {
    hide Covers;
  }

  lemma NewCheckLegal(checks: map<Id, Check>, c: Check)
    requires c.id !in checks && c.state == Evaluating && c.revision == 1
    ensures LegalCheck(checks, c)
  {}

  lemma DenialLegal(checks: map<Id, Check>, c: Check)
    requires c.id in checks && checks[c.id] == c && c.state == Evaluating
    ensures LegalCheck(checks, Finish(c, Deny, "REVIEW_REJECTED"))
  {}

  lemma StartsEvaluating(runs: map<Id, Run>, c: Check)
    requires c.run in runs && runs[c.run].state == Open && c.policy == runs[c.run].policy && c.clearance.None?
    ensures EvaluatingOk(runs, c)
  {}

  lemma CreateKeeps(db: Db, host: HostState, now: Counter, p: Principal, q: Request)
    requires Inv(db) && q.CreateCheck?
    ensures Create(db, host, now, p, q).Commit? ==> Good(db, Create(db, host, now, p, q).db, NONE)
  {
    hide Kept, Extends, Quiet, PoliciesOk, RunsOk, StreamsOk, ChecksOk, ReviewsOk, ClearsOk, SlotsOk, Covers,
         CreateFault, RefIn, PolicyIn, Newest, PendingSlots, RequiredMonitors, Jobs, Put, EvaluatingOk, LegalCheck;
    if Create(db, host, now, p, q).Commit? {
      Creatable(db, now, p, q);
      var pol := ActivePolicy(db).value;
      var c := Check(q.id, 1, q.run, q.intent, q.ref, OfPolicy(pol), Evaluating, now, now + pol.evaluationMs, [],
                     q.review, None, "PENDING");
      var ms, latched := RequiredMonitors(pol.monitors), Latched(db, q.run, q.intent.action);
      var d1 := Put(db, now, CheckStarted, ACheck(c));
      var d2 := Registered(d1, q, ms, now, latched);
      PutFrame(db, now, CheckStarted, ACheck(c));
      NewCheckLegal(db.checks, c);
      StartsEvaluating(db.runs, c);
      FreshSlotsOk(db.policies, db.observations, d2.slots, c, pol, now);
      StartCheck(db, d2, now, c);
      if latched {
        DenialLegal(d2.checks, c);
        PutFinished(d2, NONE, now, Finish(c, Deny, "REVIEW_REJECTED"));
        Then(db, d2, Put(d2, now, CheckFinalized, ACheck(Finish(c, Deny, "REVIEW_REJECTED"))), NONE, NONE);
      }
    }
  }
}
