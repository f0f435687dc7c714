/** The invariants of the durable tables, and how each kind of write keeps them.
    `Exempt` names the runs whose halt is still being carried out inside the open transaction. */
module Invariants {
  import opened Basics
  import opened Ids
  import opened Records
  import opened Store
  import opened Detect
  import opened Protocol
  import opened Timers
  import opened Safety

  // ---- growth ----

  /** Nothing committed is ever taken back. */
  ghost predicate Extends(db: Db, next: Db) {
    && db.audit <= next.audit
    && db.policies <= next.policies
    && (forall run | run in db.observations ::
          run in next.observations && db.observations[run] <= next.observations[run])
    && (forall id | id in db.checks && Terminal(db.checks[id].state) :: SlotsOf(next, id) == SlotsOf(db, id))
    && (forall k | k in db.actions && db.actions[k].rejected :: k in next.actions && next.actions[k].rejected)
    && (forall k | k in db.idempotency :: k in next.idempotency && next.idempotency[k] == db.idempotency[k])
    && db.hostEpoch <= next.hostEpoch
  }

  ghost predicate ClearEvent(e: Event) { e.value.ACheck? && e.value.check.state == CClear }

  ghost predicate Quiet(db: Db, next: Db) {
    forall i | |db.audit| <= i < |next.audit| :: !ClearEvent(next.audit[i])
  }

  lemma ExtendsTransitive(a: Db, b: Db, c: Db)
    requires Kept(a) && Kept(b) && Kept(c) && Extends(a, b) && Extends(b, c)
    ensures Extends(a, c)
    ensures Quiet(a, b) && Quiet(b, c) ==> Quiet(a, c)
  {
    assert b.audit[..|a.audit|] == a.audit;
    LifecyclesHold(b.audit, |a.audit|);
    forall i | Quiet(a, b) && Quiet(b, c) && |a.audit| <= i < |c.audit| ensures !ClearEvent(c.audit[i]) {
      if i < |b.audit| { assert c.audit[i] == b.audit[i]; }
    }
  }

  // ---- a justified clearance ----

  /** The limits a clearing check was inside of, and the results it had in time. */
  ghost predicate WithinLimits(p: Policy, o: Observation, c: Check, at: nat, slots: map<Id, MonitorSlot>) {
    && Within(o.snapshot.scopes, p.allowedScopes) && Within(c.intent.scopes, p.allowedScopes)
    && o.snapshot.committed + o.snapshot.reserved + c.intent.cost <= p.cap
    && o.snapshot.replicas.Some? && o.snapshot.replicas.value <= p.maxReplicas
    && at < o.cutMs + p.freshnessMs
    && forall i | 0 <= i < |p.monitors| && Required(p.monitors[i]) ::
         InTime(p.monitors[i], p, o, c, at, slots)
  }

  /** Monitor m answered before its slot's deadline, with exactly the recomputed result. */
  ghost predicate InTime(m: Monitor, p: Policy, o: Observation, c: Check, at: nat, slots: map<Id, MonitorSlot>) {
    && m.id in slots && slots[m.id].state == Done && at < slots[m.id].deadlineMs
    && slots[m.id].result == Some(Expected(m, p, o, c.observation, c.intent))
    && Expected(m, p, o, c.observation, c.intent) in c.results
  }

  /** The clearance is the check's, names the guard of its run, and lives as long as the policy lets it: until
      clearance time has passed or the observation is no longer fresh, whichever comes first. */
  ghost predicate SignedFor(c: Check, r: Run, p: Policy, o: Observation, at: nat) {
    && c.clearance.Some?
    && c.clearance.value.check == c.id && c.clearance.value.run == c.run
    && c.clearance.value.intent == OfIntent(c.intent) && c.clearance.value.policy == c.policy
    && c.clearance.value.observation == c.observation
    && c.clearance.value.issuedMs == at
    && c.clearance.value.runtime == r.runtime && c.clearance.value.guardEpoch == r.guardEpoch
    && c.clearance.value.boot == r.boot && c.clearance.value.mode == r.mode
    && c.clearance.value.expiresMs == LifeEnds(at, p, o)
  }

  function LifeEnds(at: nat, p: Policy, o: Observation): nat {
    if at + p.clearanceMs < o.cutMs + p.freshnessMs then at + p.clearanceMs else o.cutMs + p.freshnessMs
  }

  /** The basis of a check that no review pays for: its own. */
  ghost predicate OwnBasis(c: Check, r: Run, o: Observation) {
    && c.clearance.Some?
    && c.clearance.value.basis
       == OfBasis(Basis(c.run, OfIntent(c.intent), c.policy, r.guardEpoch, c.intent.targetRevision,
                        SpendTotal(o.snapshot, c.intent.cost), OfFindings(Findings(c.results))))
  }

  /** The event just before the clearance consumed an accepted, unexpired review of this exact basis. */
  ghost predicate PaidBy(audit: seq<Event>, i: nat, c: Check, o: Observation)
    requires i < |audit|
  {
    && i > 0 && audit[i - 1].kind == ReviewConsumed && audit[i - 1].atMs == audit[i].atMs
    && audit[i - 1].value.AReview?
    && var v := audit[i - 1].value.review;
       && v.state == Consumed && c.review == Some(v.id)
       && v.id in ReviewsOf(audit[..i - 1]) && ReviewsOf(audit[..i - 1])[v.id].state == Accepted
       && v.acceptedUntilMs.Some? && audit[i].atMs < v.acceptedUntilMs.value
       && v.basis.Some?
       && v.basis.value.run == c.run && v.basis.value.intent == OfIntent(c.intent) && v.basis.value.policy == c.policy
       && v.basis.value.targetRevision == c.intent.targetRevision
       && SpendTotal(o.snapshot, c.intent.cost) <= v.basis.value.maxTotal
       && v.basis.value.findings == OfFindings(Findings(c.results))
       && c.clearance.Some? && c.clearance.value.basis == OfBasis(v.basis.value)
       && c.clearance.value.guardEpoch == v.basis.value.guardEpoch
  }

  ghost predicate Justified(db: Db, i: nat)
    requires i < |db.audit| && ClearEvent(db.audit[i])
  {
    var c, at := db.audit[i].value.check, db.audit[i].atMs;
    var p, o := PolicyOf(db, c.policy), ByRef(db, c.observation);
    && p.Some? && o.Some? && o.value.run == c.run
    && WithinLimits(p.value, o.value, c, at, SlotsOf(db, c.id))
    && c.run in db.runs && SignedFor(c, db.runs[c.run], p.value, o.value, at)
    && (PaidBy(db.audit, i, c, o.value) || OwnBasis(c, db.runs[c.run], o.value))
    && (c.intent.cost >= p.value.reviewAt ==> PaidBy(db.audit, i, c, o.value))
  }

  ghost predicate ClearsOk(db: Db) {
    forall i | 0 <= i < |db.audit| && ClearEvent(db.audit[i]) :: Justified(db, i)
  }

  // ---- the invariant ----

  datatype Exempt = Exempt(unbound: set<Id>, over: set<Id>, late: set<Id>)
  const NONE := Exempt({}, {}, {})

  ghost predicate PoliciesOk(policies: seq<Policy>) {
    forall i | 0 <= i < |policies| :: PolicyConstraints(policies[i]) && policies[i].generation == i + 1
  }

  ghost predicate Bound(policies: seq<Policy>, r: Run) {
    Newest(policies).Some? && r.policy == OfPolicy(Newest(policies).value)
  }

  /** An OPEN run is bound to the active policy. */
  ghost predicate RunsOk(policies: seq<Policy>, runs: map<Id, Run>, unbound: set<Id>) {
    forall id | id in runs ::
      && PolicyIn(policies, runs[id].policy).Some?
      && (runs[id].state == Open && id !in unbound ==> Bound(policies, runs[id]))
  }

  /** Accepted observations are seq 1..n, linked, with nondecreasing cuts and spend; the cursor is the last. */
  ghost predicate StreamOk(r: Run, os: seq<Observation>) {
    && (forall i | 0 <= i < |os| :: LinkOk(r, os, i))
    && (forall i, j | 0 <= i < j < |os| ::
          os[i].cutMs <= os[j].cutMs && os[i].snapshot.committed <= os[j].snapshot.committed)
    && r.cursor == (if os == [] then EMPTY_HEAD else Head(|os|, OfObservation(os[|os| - 1])))
    && r.lastCutMs == (if os == [] then None else Some(os[|os| - 1].cutMs))
  }

  ghost predicate LinkOk(r: Run, os: seq<Observation>, i: nat)
    requires i < |os|
  {
    && os[i].run == r.id && os[i].source == r.source && os[i].epoch == r.sourceEpoch && os[i].boot == r.boot
    && os[i].pos == i + 1
    && os[i].prev == (if i == 0 then ZeroHash else OfObservation(os[i - 1]))
  }

  ghost predicate StreamsOk(runs: map<Id, Run>, streams: Streams) {
    && (forall id | id in streams :: id in runs)
    && (forall id | id in runs :: StreamOk(runs[id], StreamIn(streams, id)))
  }

  /** An EVALUATING check's run is OPEN under the same policy. */
  ghost predicate EvaluatingOk(runs: map<Id, Run>, c: Check) {
    c.run in runs && runs[c.run].state == Open && c.policy == runs[c.run].policy && c.clearance.None?
  }

  /** A check's slots cover the required monitors and hold only recomputed results. */
  ghost predicate SlotsOk(policies: seq<Policy>, streams: Streams, slots: Slots, c: Check) {
    && PolicyIn(policies, c.policy).Some? && RefIn(streams, c.observation).Some?
    && RefIn(streams, c.observation).value.run == c.run
    && var p, o := PolicyIn(policies, c.policy).value, RefIn(streams, c.observation).value;
       forall i | 0 <= i < |p.monitors| :: SlotOk(p.monitors[i], p, o, c, SlotsIn(slots, c.id))
  }

  ghost predicate SlotOk(m: Monitor, p: Policy, o: Observation, c: Check, slots: map<Id, MonitorSlot>) {
    && (Required(m) ==> m.id in slots)
    && (m.id in slots && slots[m.id].state == Done ==>
          slots[m.id].result == Some(Expected(m, p, o, c.observation, c.intent)))
  }

  ghost predicate ChecksOk(policies: seq<Policy>, streams: Streams, slots: Slots, runs: map<Id, Run>,
                           checks: map<Id, Check>, late: set<Id>)
  {
    && (forall id | id in slots :: id in checks)
    && (forall id | id in checks :: checks[id].run in runs && SlotsOk(policies, streams, slots, checks[id]))
    && (forall id | id in checks && checks[id].state == Evaluating && checks[id].run !in late ::
          EvaluatingOk(runs, checks[id]))
  }

  /** An active review's run is OPEN or PAUSED, and no two active reviews of a run share a basis. */
  ghost predicate ReviewsOk(runs: map<Id, Run>, checks: map<Id, Check>, reviews: map<Id, Review>, over: set<Id>) {
    && (forall id | id in reviews ::
          && reviews[id].run in runs
          && (Active(reviews[id].state) && reviews[id].run !in over ==> runs[reviews[id].run].state in {Open, Paused}))
    && (forall a, b | a in reviews && b in reviews && SameActiveBasis(reviews[a], reviews[b]) :: a == b)
    && (forall c: Id | ReviewIdFor(c) in reviews :: c in checks && Terminal(checks[c].state))
  }

  ghost predicate SameActiveBasis(a: Review, b: Review) {
    Active(a.state) && Active(b.state) && a.run == b.run && a.basis == b.basis && a.basis.Some?
  }

  ghost predicate InvBut(db: Db, x: Exempt) {
    && Kept(db) && PoliciesOk(db.policies) && RunsOk(db.policies, db.runs, x.unbound)
    && StreamsOk(db.runs, db.observations)
    && ChecksOk(db.policies, db.observations, db.slots, db.runs, db.checks, x.late)
    && ReviewsOk(db.runs, db.checks, db.reviews, x.over) && ClearsOk(db)
  }

  ghost predicate Inv(db: Db) { InvBut(db, NONE) }

  // ---- carrying facts along ----

  lemma ByRefGrows(db: Db, next: Db, r: Ref)
    requires Extends(db, next)
    ensures ByRef(db, r).Some? ==> ByRef(next, r) == ByRef(db, r)
  {
    if ByRef(db, r).Some? {
      var o := ByRef(db, r).value;
      assert o in db.observations[o.run] && db.observations[o.run] <= next.observations[o.run];
    }
  }

  lemma PolicyOfGrows(db: Db, next: Db, d: Digest)
    requires Extends(db, next)
    ensures PolicyOf(db, d).Some? ==> PolicyOf(next, d) == PolicyOf(db, d)
  {}

  /** A clear event's check keeps its value in the table, so its slots are frozen. */
  lemma ClearStays(audit: seq<Event>, i: nat)
    requires Lawful(audit) && i < |audit| && ClearEvent(audit[i])
    ensures audit[i].value.check.id in ChecksOf(audit)
            && ChecksOf(audit)[audit[i].value.check.id] == audit[i].value.check
  {
    hide Lawful;
    assert audit[..i + 1] == audit[..i] + [audit[i]];
    ReplayGrows(audit[..i], audit[i]);
    LifecyclesHold(audit, i + 1);
  }

  lemma RunStays(db: Db, next: Db, id: Id)
    requires Kept(db) && Kept(next) && Extends(db, next) && id in db.runs
    ensures id in next.runs && SameRunIdentity(db.runs[id], next.runs[id])
  {
    hide Lawful, Chained;
    assert next.audit[..|db.audit|] == db.audit;
    LifecyclesHold(next.audit, |db.audit|);
  }

  lemma JustifiedCarries(db: Db, next: Db, i: nat)
    requires Kept(db) && Kept(next) && Extends(db, next)
    requires i < |db.audit| && ClearEvent(db.audit[i]) && Justified(db, i)
    ensures ClearEvent(next.audit[i]) && Justified(next, i)
  {
    hide Kept, Extends, SignedFor, OwnBasis, PaidBy, WithinLimits, PolicyIn, RefIn, SlotsIn, SameRunIdentity;
    var c := db.audit[i].value.check;
    assert db.audit <= next.audit && SlotsOf(next, c.id) == SlotsOf(db, c.id) by { FrozenSlots(db, next, i); }
    ByRefGrows(db, next, c.observation);
    PolicyOfGrows(db, next, c.policy);
    RunStays(db, next, c.run);
    var p, o := PolicyOf(db, c.policy).value, ByRef(db, c.observation).value;
    SignedCarries(c, db.runs[c.run], next.runs[c.run], p, o, db.audit[i].atMs);
    if PaidBy(db.audit, i, c, o) { PaidCarries(db.audit, next.audit, i, c, o); }
  }

  lemma FrozenSlots(db: Db, next: Db, i: nat)
    requires Kept(db) && Extends(db, next) && i < |db.audit| && ClearEvent(db.audit[i])
    ensures db.audit <= next.audit
    ensures SlotsOf(next, db.audit[i].value.check.id) == SlotsOf(db, db.audit[i].value.check.id)
  {
    ClearStays(db.audit, i);
  }

  lemma SignedCarries(c: Check, a: Run, b: Run, p: Policy, o: Observation, at: nat)
    requires SameRunIdentity(a, b)
    ensures SignedFor(c, a, p, o, at) ==> SignedFor(c, b, p, o, at)
    ensures OwnBasis(c, a, o) ==> OwnBasis(c, b, o)
  {}

  lemma PaidCarries(audit: seq<Event>, next: seq<Event>, i: nat, c: Check, o: Observation)
    requires audit <= next && i < |audit| && PaidBy(audit, i, c, o)
    ensures PaidBy(next, i, c, o)
  {
    assert next[i - 1] == audit[i - 1];
    assert next[..i - 1] == audit[..i - 1];
  }

  lemma ClearsCarry(db: Db, next: Db)
    requires Kept(db) && Kept(next) && Extends(db, next) && Quiet(db, next) && ClearsOk(db)
    ensures ClearsOk(next)
  {
    forall i | 0 <= i < |next.audit| && ClearEvent(next.audit[i]) ensures Justified(next, i) {
      assert i < |db.audit|;
      assert db.audit[i] == next.audit[i];
      JustifiedCarries(db, next, i);
    }
  }
}
