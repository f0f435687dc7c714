/** The heart of the safety argument: the only step that clears a check is the finalization transaction, and
    it clears only what the policy, the recomputed results and, where one is needed, a human allow. */
module Clearing {
  import opened Basics
  import opened Ids
  import opened Records
  import opened Store
  import opened Detect
  import opened Protocol
  import opened Timers
  import opened Safety
  import opened Invariants
  import opened Steps
  import opened Handlers

  // ---- from a result vector to the limits ----

  /** Every slot of the vector is in, and none is a flag or unavailable. */
  ghost predicate AllUsable(vec: seq<Option<Result>>) {
    forall i | 0 <= i < |vec| :: Is(vec[i], Clear) || Is(vec[i], Uncertain)
  }

  lemma DecideClear(db: Db, now: nat, c: Check, r: Run, p: Policy, b: Basis, vec: seq<Option<Result>>)
    requires Decide(db, now, c, r, p, b, vec) == OClear
    ensures AllUsable(vec)
    ensures (exists i | 0 <= i < |vec| :: Is(vec[i], Uncertain)) ==> Consumable(db, now, c, r, b).Some?
  {
    hide Aggregate, Consumable, Is;
    AggregateMeans(vec, QueueCtx(|ActiveReviewIds(db, None)|, |ActiveReviewIds(db, Some(r.id))|, p.queueCapacity,
                                 p.perRunOpenReviews, ActiveWithBasis(db, r.id, b) != {}));
    forall i | 0 <= i < |vec| && Is(vec[i], Clear) ensures !Is(vec[i], Uncertain) { ClearIsNotUncertain(vec[i]); }
  }

  lemma ClearIsNotUncertain(s: Option<Result>)
    requires Is(s, Clear)
    ensures !Is(s, Uncertain)
  {}

  /** A required monitor's slot in a usable vector is done, in time, and equal to the recomputed result. */
  lemma SlotInTime(m: Monitor, p: Policy, o: Observation, c: Check, slots: map<Id, MonitorSlot>, now: nat,
                   rs: seq<Result>)
    requires SlotOk(m, p, o, c, slots) && Required(m)
    requires AllUsable(SlotVector(slots, now)) && rs == SettledResults(SlotVector(slots, now))
    ensures InTime(m, p, o, c.(results := rs), now, slots)
    ensures Expected(m, p, o, c.observation, c.intent).verdict in {Clear, Uncertain}
    ensures Expected(m, p, o, c.observation, c.intent).verdict == Uncertain ==>
              exists i | 0 <= i < |SlotVector(slots, now)| :: Is(SlotVector(slots, now)[i], Uncertain)
  {
    hide Expected;
    var ids, vec := Ascending(slots.Keys), SlotVector(slots, now);
    var i :| 0 <= i < |ids| && ids[i] == m.id;
    assert vec[i] == Counted(slots[m.id], now);
    assert Is(vec[i], Clear) || Is(vec[i], Uncertain);
    assert Some(vec[i].value) in vec;
  }

  lemma LimitsFromResults(m: Monitor, p: Policy, o: Observation, ref: Ref, intent: Intent)
    requires Expected(m, p, o, ref, intent).verdict in {Clear, Uncertain}
    ensures m.detector == Scope ==> Within(o.snapshot.scopes, p.allowedScopes) && Within(intent.scopes, p.allowedScopes)
    ensures m.detector == Spend ==> o.snapshot.committed + o.snapshot.reserved + intent.cost <= p.cap
    ensures m.detector == Spend && intent.cost >= p.reviewAt ==> Expected(m, p, o, ref, intent).verdict == Uncertain
    ensures m.detector == Replicas ==> o.snapshot.replicas.Some? && o.snapshot.replicas.value <= p.maxReplicas
  {}

  lemma HasRequired(p: Policy, d: Detector) returns (i: nat)
    requires PolicyConstraints(p) && d in {Scope, Spend, Replicas}
    ensures i < |p.monitors| && p.monitors[i].detector == d && Required(p.monitors[i])
  {
    assert HasDetector(p, d);
    var j :| 0 <= j < |p.monitors| && p.monitors[j].detector == d;
    i := j;
    assert MonitorShape(p.monitors[i]);
  }

  lemma ClearedWithinLimits(p: Policy, o: Observation, c: Check, slots: map<Id, MonitorSlot>, now: nat, rs: seq<Result>)
    requires PolicyConstraints(p) && (forall i | 0 <= i < |p.monitors| :: SlotOk(p.monitors[i], p, o, c, slots))
    requires AllUsable(SlotVector(slots, now)) && rs == SettledResults(SlotVector(slots, now))
    requires SatSub(now, o.cutMs) < p.freshnessMs
    ensures WithinLimits(p, o, c.(results := rs), now, slots)
    ensures c.intent.cost >= p.reviewAt ==>
              exists i | 0 <= i < |SlotVector(slots, now)| :: Is(SlotVector(slots, now)[i], Uncertain)
  {
    hide Expected, SlotOk, AllUsable, PolicyConstraints, InTime, SlotVector, SettledResults, Required, Is, Within;
    var a := HasRequired(p, Scope);
    var b := HasRequired(p, Spend);
    var e := HasRequired(p, Replicas);
    forall i | 0 <= i < |p.monitors| && Required(p.monitors[i])
      ensures InTime(p.monitors[i], p, o, c.(results := rs), now, slots)
    {
      SlotInTime(p.monitors[i], p, o, c, slots, now, rs);
    }
    OneDetector(p.monitors[a], p, o, c, slots, now, rs);
    OneDetector(p.monitors[b], p, o, c, slots, now, rs);
    OneDetector(p.monitors[e], p, o, c, slots, now, rs);
  }

  /** The limit a required monitor in a usable vector has been inside of. */
  lemma OneDetector(m: Monitor, p: Policy, o: Observation, c: Check, slots: map<Id, MonitorSlot>, now: nat,
                    rs: seq<Result>)
    requires SlotOk(m, p, o, c, slots) && Required(m)
    requires AllUsable(SlotVector(slots, now)) && rs == SettledResults(SlotVector(slots, now))
    ensures m.detector == Scope ==>
              Within(o.snapshot.scopes, p.allowedScopes) && Within(c.intent.scopes, p.allowedScopes)
    ensures m.detector == Spend ==> o.snapshot.committed + o.snapshot.reserved + c.intent.cost <= p.cap
    ensures m.detector == Spend && c.intent.cost >= p.reviewAt ==>
              exists i | 0 <= i < |SlotVector(slots, now)| :: Is(SlotVector(slots, now)[i], Uncertain)
    ensures m.detector == Replicas ==> o.snapshot.replicas.Some? && o.snapshot.replicas.value <= p.maxReplicas
  {
    hide Expected, SlotOk, AllUsable, InTime, SlotVector, SettledResults, Required, Is, Within;
    SlotInTime(m, p, o, c, slots, now, rs);
    LimitsFromResults(m, p, o, c.observation, c.intent);
  }

  // ---- the clearing write ----

  /** The two events of the clearing transaction, seen from the finished log. */
  lemma PaidInLog(db: Db, next: Db, now: nat, c2: Check, o: Observation, v: Review)
    requires Kept(db) && v.id in db.reviews && db.reviews[v.id] == v && v.state == Accepted
    requires next == Put(Put(db, now, ReviewConsumed, AReview(v.(state := Consumed, revision := v.revision + 1))),
                         now, CheckFinalized, ACheck(c2))
    requires c2.review == Some(v.id) && v.acceptedUntilMs.Some? && now < v.acceptedUntilMs.value && v.basis.Some?
    requires v.basis.value.run == c2.run && v.basis.value.intent == OfIntent(c2.intent)
             && v.basis.value.policy == c2.policy
    requires v.basis.value.targetRevision == c2.intent.targetRevision
    requires SpendTotal(o.snapshot, c2.intent.cost) <= v.basis.value.maxTotal
    requires v.basis.value.findings == OfFindings(Findings(c2.results))
    requires c2.clearance.Some? && c2.clearance.value.basis == OfBasis(v.basis.value)
    requires c2.clearance.value.guardEpoch == v.basis.value.guardEpoch
    ensures |next.audit| == |db.audit| + 2
    ensures PaidBy(next.audit, |next.audit| - 1, c2, o)
  {
    hide Kept, RowOf, Findings, SpendTotal;
    var n, v2 := |db.audit|, v.(state := Consumed, revision := v.revision + 1);
    var d := Put(db, now, ReviewConsumed, AReview(v2));
    PutFrame(db, now, ReviewConsumed, AReview(v2));
    PutFrame(d, now, CheckFinalized, ACheck(c2));
    assert next.audit[..n] == db.audit;
    assert next.audit[n] == NextEvent(db.audit, now, ReviewConsumed, AReview(v2));
    ReviewsReplayed(db);
    hide Put, ReviewsOf, NextEvent;
  }

  lemma ReviewsReplayed(db: Db)
    requires Kept(db)
    ensures db.reviews == ReviewsOf(db.audit)
  {}

  lemma AppliedLast(db: Db, now: nat, kind: Kind, s: Subject)
    ensures var a := Put(db, now, kind, s).audit;
            |a| == |db.audit| + 1 && a[|db.audit|].value == s && a[|db.audit|].atMs == now
                && a[..|db.audit|] == db.audit
  {}

  /** Everything that stood in the way of a CLEAR event was in place when it was written. */
  lemma PutClear(db: Db, d: Db, x: Exempt, now: nat, c2: Check, p: Policy, o: Observation)
    requires d == Put(db, now, CheckFinalized, ACheck(c2)) && |d.audit| == |db.audit| + 1
    requires InvBut(db, x) && c2.id in db.checks && LegalCheck(db.checks, c2) && c2.state == CClear
    requires PolicyIn(db.policies, c2.policy) == Some(p) && RefIn(db.observations, c2.observation) == Some(o)
             && o.run == c2.run
    requires WithinLimits(p, o, c2, now, SlotsOf(db, c2.id))
    requires c2.run in db.runs && SignedFor(c2, db.runs[c2.run], p, o, now)
    requires PaidBy(d.audit, |db.audit|, c2, o) || OwnBasis(c2, db.runs[c2.run], o)
    requires c2.intent.cost >= p.reviewAt ==> PaidBy(d.audit, |db.audit|, c2, o)
    ensures InvBut(d, x) && Extends(db, d)
  {
    hide Kept, Extends, Quiet, PoliciesOk, RunsOk, StreamsOk, ChecksOk, ReviewsOk, ClearsOk, WithinLimits, SignedFor,
         PaidBy, OwnBasis, Justified, LegalCheck, RefIn, PolicyIn, RowOf, NextEvent;
    Emitted(db, now, CheckFinalized, ACheck(c2));
    ChecksOkFinish(db, x.late, c2);
    ReviewsOkFinish(db.runs, db.checks, db.reviews, x.over, c2);
    AppliedLast(db, now, CheckFinalized, ACheck(c2));
    JustifyLast(d, |db.audit|, c2, now, p, o);
    AllJustified(db, d);
  }

  lemma JustifyLast(d: Db, i: nat, c: Check, now: nat, p: Policy, o: Observation)
    requires i < |d.audit| && d.audit[i].value == ACheck(c) && d.audit[i].atMs == now && c.state == CClear
    requires PolicyIn(d.policies, c.policy) == Some(p) && RefIn(d.observations, c.observation) == Some(o)
             && o.run == c.run
    requires WithinLimits(p, o, c, now, SlotsOf(d, c.id))
    requires c.run in d.runs && SignedFor(c, d.runs[c.run], p, o, now)
    requires PaidBy(d.audit, i, c, o) || OwnBasis(c, d.runs[c.run], o)
    requires c.intent.cost >= p.reviewAt ==> PaidBy(d.audit, i, c, o)
    ensures ClearEvent(d.audit[i]) && Justified(d, i)
  {
    hide WithinLimits, SignedFor, PaidBy, OwnBasis;
  }

  lemma AllJustified(db: Db, d: Db)
    requires Kept(db) && Kept(d) && Extends(db, d) && ClearsOk(db) && |d.audit| == |db.audit| + 1
    requires ClearEvent(d.audit[|db.audit|]) ==> Justified(d, |db.audit|)
    ensures ClearsOk(d)
  {
    hide Kept, Extends, Justified;
    assert forall i | 0 <= i < |db.audit| :: db.audit[i] == d.audit[i] by { PrefixOf(db, d); }
    forall i | 0 <= i < |d.audit| && ClearEvent(d.audit[i]) ensures Justified(d, i) {
      if i < |db.audit| { JustifiedCarries(db, d, i); }
    }
  }

  lemma PrefixOf(db: Db, d: Db)
    requires Extends(db, d)
    ensures db.audit <= d.audit
  {}

  // ---- opening a review ----

  lemma ReviewsOkNew(runs: map<Id, Run>, checks: map<Id, Check>, reviews: map<Id, Review>, over: set<Id>, v: Review)
    requires ReviewsOk(runs, checks, reviews, over) && v.id !in reviews
    requires v.run in runs && runs[v.run].state in {Open, Paused}
    requires forall id | id in reviews :: !SameActiveBasis(reviews[id], v) && !SameActiveBasis(v, reviews[id])
    requires forall c: Id | ReviewIdFor(c) == v.id :: c in checks && Terminal(checks[c].state)
    ensures ReviewsOk(runs, checks, reviews[v.id := v], over)
  {
    hide SameActiveBasis, Terminal, ReviewIdFor;
    var next := reviews[v.id := v];
    forall a, b | a in next && b in next && SameActiveBasis(next[a], next[b]) ensures a == b {
      if a != v.id && b != v.id { assert a in reviews && b in reviews; }
    }
  }

  lemma PutNewReview(db: Db, x: Exempt, now: nat, v: Review)
    requires InvBut(db, x) && v.id !in db.reviews && LegalReview(db.reviews, v) && OpenedFor(db.checks, v)
    requires v.run in db.runs && db.runs[v.run].state in {Open, Paused}
    requires forall id | id in db.reviews :: !SameActiveBasis(db.reviews[id], v) && !SameActiveBasis(v, db.reviews[id])
    requires forall c: Id | ReviewIdFor(c) == v.id :: c in db.checks && Terminal(db.checks[c].state)
    ensures Good(db, Put(db, now, ReviewOpened, AReview(v)), x)
  {
    hide Kept, Extends, Quiet, PoliciesOk, RunsOk, StreamsOk, ChecksOk, ReviewsOk, ClearsOk;
    Emitted(db, now, ReviewOpened, AReview(v));
    ClearsCarry(db, Put(db, now, ReviewOpened, AReview(v)));
    ReviewsOkNew(db.runs, db.checks, db.reviews, x.over, v);
  }

  lemma ReviewIdsDiffer(a: Id, b: Id)
    ensures ReviewIdFor(a) == ReviewIdFor(b) ==> a == b
  {
    assert ReviewIdFor(a)[4..] == a && ReviewIdFor(b)[4..] == b;
  }

  lemma NoReviewYet(db: Db, c: Id)
    requires ReviewsOk(db.runs, db.checks, db.reviews, {}) && c in db.checks && db.checks[c].state == Evaluating
    ensures ReviewIdFor(c) !in db.reviews
  {}

  /** A hold that needs a queue position opens exactly one review, named after the check. */
  lemma HoldKeeps(db: Db, now: nat, c: Check, r: Run, p: Policy, b: Basis, why: string)
    requires Inv(db) && c.id in db.checks && SameCheckIdentity(db.checks[c.id], c)
             && db.checks[c.id].state == Evaluating
    requires c.revision == db.checks[c.id].revision && c.run == r.id
    requires r.id in db.runs && db.runs[r.id] == r && r.state == Open && ActiveWithBasis(db, r.id, b) == {}
    ensures var v := NewReview(db, now, c, r, p, b, why);
            Good(db, Put(Put(db, now, CheckFinalized, ACheck(Finish(c, Held, why).(review := Some(v.id)))), now,
                         ReviewOpened, AReview(v)), NONE)
  {
    hide Kept, Extends, Quiet, PoliciesOk, RunsOk, StreamsOk, ChecksOk, ReviewsOk, ClearsOk;
    var v := NewReview(db, now, c, r, p, b, why);
    var c2 := Finish(c, Held, why).(review := Some(v.id));
    var d := Put(db, now, CheckFinalized, ACheck(c2));
    PutFinished(db, NONE, now, c2);
    NoReviewYet(db, c.id);
    forall id | id in db.reviews ensures !SameActiveBasis(db.reviews[id], v) && !SameActiveBasis(v, db.reviews[id]) {
      assert id !in ActiveWithBasis(db, r.id, b);
    }
    forall k: Id | ReviewIdFor(k) == v.id
      ensures k in d.checks && Terminal(d.checks[k].state)
    {
      ReviewIdsDiffer(k, c.id);
    }
    PutNewReview(d, NONE, now, v);
    Then(db, d, Put(d, now, ReviewOpened, AReview(v)), NONE, NONE);
  }

  // ---- finalize ----

  lemma CoversMeans(v: Review, now: nat, run: Id, intent: Intent, policy: Digest, guardEpoch: Counter, total: nat)
    requires Covers(v, now, run, intent, policy, guardEpoch, total)
    ensures v.state == Accepted && v.acceptedUntilMs.Some? && now < v.acceptedUntilMs.value && v.basis.Some?
    ensures v.basis.value.run == run && v.basis.value.intent == OfIntent(intent) && v.basis.value.policy == policy
    ensures v.basis.value.guardEpoch == guardEpoch && v.basis.value.targetRevision == intent.targetRevision
    ensures total <= v.basis.value.maxTotal
  {}

  /** The facts the final transaction has rechecked by the time it aggregates. */
  ghost predicate Rechecked(db: Db, now: nat, c: Check, r: Run, p: Policy, o: Observation) {
    && c.id in db.checks && db.checks[c.id] == c && c.state == Evaluating
    && c.run in db.runs && db.runs[c.run] == r && r.id == c.run && r.state == Open && r.policy == c.policy
    && PolicyIn(db.policies, c.policy) == Some(p) && RefIn(db.observations, c.observation) == Some(o)
    && SatSub(now, o.cutMs) < p.freshnessMs
  }

  lemma PolicyMeets(policies: seq<Policy>, d: Digest, p: Policy)
    requires PoliciesOk(policies) && PolicyIn(policies, d) == Some(p)
    ensures PolicyConstraints(p)
  {
    hide PolicyConstraints;
  }

  lemma SlotsAt(db: Db, late: set<Id>, c: Check, p: Policy, o: Observation)
    requires ChecksOk(db.policies, db.observations, db.slots, db.runs, db.checks, late)
    requires c.id in db.checks && db.checks[c.id] == c
    requires PolicyIn(db.policies, c.policy) == Some(p) && RefIn(db.observations, c.observation) == Some(o)
    ensures o.run == c.run && forall i | 0 <= i < |p.monitors| :: SlotOk(p.monitors[i], p, o, c, SlotsOf(db, c.id))
  {
    hide SlotOk, EvaluatingOk;
    assert SlotsOk(db.policies, db.observations, db.slots, db.checks[c.id]);
  }

  lemma ClearanceSigned(now: nat, c: Check, r: Run, p: Policy, o: Observation, basis: Digest)
    requires r.id == c.run
    ensures var k := NewClearance(now, c, r, p, o, basis);
            && k.basis == basis && k.guardEpoch == r.guardEpoch
            && SignedFor(Finish(c, CClear, "CLEAR").(clearance := Some(k)), r, p, o, now)
  {}

  lemma UnpaidBasis(c: Check, r: Run, o: Observation, rs: seq<Result>, c2: Check)
    requires r.id == c.run && c2.clearance.Some? && c2.clearance.value.basis == OfBasis(CandidateBasis(c, r, o, rs))
    requires c2.run == c.run && c2.intent == c.intent && c2.policy == c.policy && c2.results == rs
    ensures OwnBasis(c2, r, o)
  {}

  lemma LimitsSame(p: Policy, o: Observation, a: Check, b: Check, now: nat, slots: map<Id, MonitorSlot>)
    requires WithinLimits(p, o, a, now, slots) && a.intent == b.intent && a.results == b.results
             && a.observation == b.observation
    ensures WithinLimits(p, o, b, now, slots)
  {
    hide Expected, Required, Within;
    forall i | 0 <= i < |p.monitors| && Required(p.monitors[i]) ensures InTime(p.monitors[i], p, o, b, now, slots) {
      assert InTime(p.monitors[i], p, o, a, now, slots);
    }
  }

  /** Consuming the supplied review and clearing, in one transaction. */
  lemma ClearKeeps(db: Db, now: nat, c: Check, r: Run, p: Policy, o: Observation, rs: seq<Result>, paid: Option<Review>)
    requires Inv(db) && Rechecked(db, now, c, r, p, o) && o.run == c.run
    requires paid == Consumable(db, now, c.(results := rs), r, CandidateBasis(c, r, o, rs))
    requires WithinLimits(p, o, c.(results := rs), now, SlotsOf(db, c.id))
    requires c.intent.cost >= p.reviewAt ==> paid.Some?
    ensures var d := Cleared(db, now, c.(results := rs), r, p, o, paid, CandidateBasis(c, r, o, rs));
            InvBut(d, NONE) && Extends(db, d)
  {
    hide Kept, Extends, Quiet, PoliciesOk, RunsOk, StreamsOk, ChecksOk, ReviewsOk, ClearsOk, WithinLimits, SignedFor,
         PaidBy, OwnBasis, Covers, Consumable, LegalCheck, LegalReview, RefIn, PolicyIn, Put, Findings, NewClearance,
         SpendTotal, SatSub;
    Keyed(db);
    var c1, b := c.(results := rs), CandidateBasis(c, r, o, rs);
    var basis := OfBasis(if paid.Some? && paid.value.basis.Some? then paid.value.basis.value else b);
    var c2 := Finish(c1, CClear, "CLEAR").(clearance := Some(NewClearance(now, c1, r, p, o, basis)));
    ClearanceSigned(now, c1, r, p, o, basis);
    LimitsSame(p, o, c1, c2, now, SlotsOf(db, c.id));
    ClearingLegal(db.checks, c, c2);
    if paid.None? {
      UnpaidBasis(c1, r, o, rs, c2);
      AppliedLast(db, now, CheckFinalized, ACheck(c2));
      PutClear(db, Put(db, now, CheckFinalized, ACheck(c2)), NONE, now, c2, p, o);
    } else {
      ConsumableMeans(db, now, c1, r, b);
      PaidClearKeeps(db, now, c2, p, o, paid.value);
    }
  }

  lemma PaidClearKeeps(db: Db, now: nat, c2: Check, p: Policy, o: Observation, v: Review)
    requires Inv(db) && v.id in db.reviews && db.reviews[v.id] == v && v.state == Accepted
    requires c2.id in db.checks && LegalCheck(db.checks, c2) && c2.state == CClear
    requires PolicyIn(db.policies, c2.policy) == Some(p) && RefIn(db.observations, c2.observation) == Some(o)
             && o.run == c2.run
    requires WithinLimits(p, o, c2, now, SlotsOf(db, c2.id))
    requires c2.run in db.runs && SignedFor(c2, db.runs[c2.run], p, o, now)
    requires c2.review == Some(v.id) && v.acceptedUntilMs.Some? && now < v.acceptedUntilMs.value && v.basis.Some?
    requires v.basis.value.run == c2.run && v.basis.value.intent == OfIntent(c2.intent)
             && v.basis.value.policy == c2.policy
    requires v.basis.value.targetRevision == c2.intent.targetRevision
    requires SpendTotal(o.snapshot, c2.intent.cost) <= v.basis.value.maxTotal
    requires v.basis.value.findings == OfFindings(Findings(c2.results))
    requires c2.clearance.Some? && c2.clearance.value.basis == OfBasis(v.basis.value)
    requires c2.clearance.value.guardEpoch == v.basis.value.guardEpoch
    ensures var d := Put(Put(db, now, ReviewConsumed, AReview(v.(state := Consumed, revision := v.revision + 1))), now,
                         CheckFinalized, ACheck(c2));
            InvBut(d, NONE) && Extends(db, d)
  {
    hide Kept, Extends, Quiet, PoliciesOk, RunsOk, StreamsOk, ChecksOk, ReviewsOk, ClearsOk, WithinLimits, SignedFor,
         PaidBy, OwnBasis, LegalCheck, LegalReview, RefIn, PolicyIn, Put, Findings, SpendTotal;
    var v2 := v.(state := Consumed, revision := v.revision + 1);
    var d := Put(db, now, ReviewConsumed, AReview(v2));
    var next := Put(d, now, CheckFinalized, ACheck(c2));
    ConsumingLegal(db.reviews, v);
    PutReview(db, NONE, now, ReviewConsumed, v2);
    PutFrame(db, now, ReviewConsumed, AReview(v2));
    PaidInLog(db, next, now, c2, o, v);
    AppliedLast(db, now, ReviewConsumed, AReview(v2));
    AppliedLast(d, now, CheckFinalized, ACheck(c2));
    PutClear(d, next, NONE, now, c2, p, o);
    ExtendsTransitive(db, d, next);
  }

  lemma ClearingLegal(checks: map<Id, Check>, c: Check, c2: Check)
    requires c.id in checks && checks[c.id] == c && c.state == Evaluating
    requires SameCheckIdentity(c, c2) && c2.state == CClear && c2.revision == c.revision + 1
    ensures LegalCheck(checks, c2)
  {}

  lemma ConsumingLegal(reviews: map<Id, Review>, v: Review)
    requires v.id in reviews && reviews[v.id] == v && v.state == Accepted
    ensures LegalReview(reviews, v.(state := Consumed, revision := v.revision + 1))
  {}

  /** What a review that may be consumed is worth. */
  lemma ConsumableMeans(db: Db, now: nat, c: Check, r: Run, b: Basis)
    requires Consumable(db, now, c, r, b).Some? && forall id | id in db.reviews :: db.reviews[id].id == id
    ensures var v := Consumable(db, now, c, r, b).value;
            && v.id in db.reviews && db.reviews[v.id] == v && c.review == Some(v.id)
            && v.state == Accepted && v.acceptedUntilMs.Some? && now < v.acceptedUntilMs.value && v.basis.Some?
            && v.basis.value.run == r.id && v.basis.value.intent == OfIntent(c.intent)
            && v.basis.value.policy == c.policy
            && v.basis.value.guardEpoch == r.guardEpoch && v.basis.value.targetRevision == c.intent.targetRevision
            && b.maxTotal <= v.basis.value.maxTotal && v.basis.value.findings == b.findings
  {
    var v := Consumable(db, now, c, r, b).value;
    CoversMeans(v, now, r.id, c.intent, c.policy, r.guardEpoch, b.maxTotal);
  }

  lemma OutcomeKeeps(db: Db, now: nat, c: Check, r: Run, p: Policy, o: Observation, vec: seq<Option<Result>>)
    requires Inv(db) && Rechecked(db, now, c, r, p, o) && vec == SlotVector(SlotsOf(db, c.id), now)
    ensures var rs := SettledResults(vec);
            var b := CandidateBasis(c, r, o, rs);
            var held := ActiveWithBasis(db, r.id, b);
            var d := ApplyOutcome(db, now, c.(results := rs), r, p, o, Decide(db, now, c, r, p, b, vec),
                                  if held == {} then None else Some(Least(held)), Consumable(db, now, c, r, b), b);
            Inv(d) && Extends(db, d)
  {
    hide Kept, Extends, Quiet, PoliciesOk, RunsOk, StreamsOk, ChecksOk, ReviewsOk, ClearsOk, WithinLimits, Cleared,
         SlotOk, Covers, AllUsable, Is, PolicyConstraints, SlotVector, SettledResults, Aggregate, Decide, Consumable;
    Keyed(db);
    var rs := SettledResults(vec);
    var b := CandidateBasis(c, r, o, rs);
    var outcome := Decide(db, now, c, r, p, b, vec);
    var c1 := c.(results := rs);
    match outcome
    case ODeny(why) => PutFinished(db, NONE, now, Finish(c1, Deny, why));
    case OExpired(why) => PutFinished(db, NONE, now, Finish(c1, CExpired, why));
    case OHeld(why, novel) =>
      if novel {
        HeldNeedsRoom(db, now, c, r, p, b, vec);
        HoldKeeps(db, now, c1, r, p, b, why);
      } else {
        var held := ActiveWithBasis(db, r.id, b);
        PutFinished(db, NONE, now, Finish(c1, Held, why).(review := if held == {} then c1.review
                                                          else Some(Least(held))));
      }
    case OClear =>
      DecideClear(db, now, c, r, p, b, vec);
      PolicyMeets(db.policies, c.policy, p);
      SlotsAt(db, {}, c, p, o);
      ClearedWithinLimits(p, o, c, SlotsOf(db, c.id), now, rs);
      ConsumableSame(db, now, c, rs, r, b);
      ClearKeeps(db, now, c, r, p, o, rs, Consumable(db, now, c, r, b));
  }

  lemma ConsumableSame(db: Db, now: nat, c: Check, rs: seq<Result>, r: Run, b: Basis)
    ensures Consumable(db, now, c.(results := rs), r, b) == Consumable(db, now, c, r, b)
  {}

  lemma HeldNeedsRoom(db: Db, now: nat, c: Check, r: Run, p: Policy, b: Basis, vec: seq<Option<Result>>)
    requires Decide(db, now, c, r, p, b, vec).OHeld? && Decide(db, now, c, r, p, b, vec).newReview
    ensures ActiveWithBasis(db, r.id, b) == {}
  {
    hide Aggregate, Consumable, Is, ActiveWithBasis;
    AggregateMeans(vec, QueueCtx(|ActiveReviewIds(db, None)|, |ActiveReviewIds(db, Some(r.id))|, p.queueCapacity,
                                 p.perRunOpenReviews, ActiveWithBasis(db, r.id, b) != {}));
  }

  lemma FinalizeKeeps(db: Db, now: nat, c: Check)
    requires Inv(db) && c.id in db.checks && db.checks[c.id] == c && c.state == Evaluating
    ensures var d := Finalize(db, now, c, SlotVector(SlotsOf(db, c.id), now)); Inv(d) && Extends(db, d)
  {
    hide Kept, Extends, Quiet, PoliciesOk, RunsOk, StreamsOk, ChecksOk, ReviewsOk, ClearsOk, SlotVector, ApplyOutcome,
         Decide, Consumable, SettledResults, SameFooting;
    Keyed(db);
    Unchanged(db, NONE);
    if c.run in db.runs && PolicyOf(db, c.policy).Some? {
      var r, p := db.runs[c.run], PolicyOf(db, c.policy).value;
      PutFinished(db, NONE, now, Finish(c, Stale, "STALE"));
      PutFinished(db, NONE, now, Finish(c, CExpired, "MONITOR_TIMEOUT"));
      if !OutOfDate(db, now, c, r, p) {
        OutcomeKeeps(db, now, c, r, p, ByRef(db, c.observation).value, SlotVector(SlotsOf(db, c.id), now));
      }
    }
  }

  lemma MaybeFinalizeKeeps(db: Db, now: nat, check: Id)
    requires Inv(db)
    ensures Inv(MaybeFinalize(db, now, check)) && Extends(db, MaybeFinalize(db, now, check))
  {
    hide Kept, Extends, Quiet, PoliciesOk, RunsOk, StreamsOk, ChecksOk, ReviewsOk, ClearsOk, SlotVector, Finalize;
    Keyed(db);
    Unchanged(db, NONE);
    if check in db.checks && db.checks[check].state == Evaluating { FinalizeKeeps(db, now, db.checks[check]); }
  }
}
