/** Every request handler keeps the invariant and takes nothing back. */
module Handlers {
  import opened Basics
  import opened Ids
  import opened Records
  import opened Store
  import opened Detect
  import opened Protocol
  import opened Timers
  import opened Safety
  import opened Invariants
  import opened Steps
  import Queue

  lemma KeptSame(db: Db, next: Db)
    requires Kept(db) && next.audit == db.audit && next.history == db.history
    requires next.runs == db.runs && next.checks == db.checks && next.reviews == db.reviews
    ensures Kept(next) && Quiet(db, next)
  {}

  /** Tables the invariant does not speak about may change as long as nothing is taken back. */
  lemma SideTables(db: Db, next: Db, x: Exempt)
    requires InvBut(db, x) && Extends(db, next)
    requires next == db.(actions := next.actions, windows := next.windows, cursors := next.cursors,
                         outbox := next.outbox,
                         hostEpoch := next.hostEpoch, idempotency := next.idempotency)
    ensures Good(db, next, x)
  {
    hide Kept, Extends, PoliciesOk, RunsOk, StreamsOk, ChecksOk, ReviewsOk, ClearsOk;
    KeptSame(db, next);
    ClearsCarry(db, next);
  }

  // ---- system.drain ----

  lemma DrainKeeps(db: Db, host: Host, now: nat)
    requires Inv(db)
    ensures Drain(db, host, now).Commit? ==> Good(db, Drain(db, host, now).db, NONE)
  {
    hide Kept, Extends, Quiet, PoliciesOk, RunsOk, StreamsOk, ChecksOk, ReviewsOk, ClearsOk;
    var s := AHost(host.(state := Draining));
    var d := Put(db, now, HostDraining, s);
    PutOther(db, NONE, now, HostDraining, s);
    FinishRun(d, NONE, now, None, CExpired, "DRAIN");
    Then(db, d, FinishAll(d, now, EvaluatingIds(d, None), CExpired, "DRAIN"), NONE, NONE);
  }

  // ---- policy.activate ----

  lemma PolicyInGrows(policies: seq<Policy>, p: Policy, d: Digest)
    ensures PolicyIn(policies, d).Some? ==> PolicyIn(policies + [p], d) == PolicyIn(policies, d)
  {}

  lemma ChecksOkPolicies(db: Db, p: Policy)
    requires ChecksOk(db.policies, db.observations, db.slots, db.runs, db.checks, {})
    ensures ChecksOk(db.policies + [p], db.observations, db.slots, db.runs, db.checks, {})
  {
    forall id | id in db.checks ensures SlotsOk(db.policies + [p], db.observations, db.slots, db.checks[id]) {
      assert SlotsOk(db.policies, db.observations, db.slots, db.checks[id]);
      PolicyInGrows(db.policies, p, db.checks[id].policy);
    }
    hide SlotsOk;
    forall id | id in db.checks && db.checks[id].state == Evaluating ensures EvaluatingOk(db.runs, db.checks[id]) {}
  }

  lemma RunsOkPolicies(policies: seq<Policy>, runs: map<Id, Run>, p: Policy, open: set<Id>)
    requires RunsOk(policies, runs, {}) && (forall id | id in runs && runs[id].state == Open :: id in open)
    ensures RunsOk(policies + [p], runs, open)
  {
    forall id | id in runs ensures PolicyIn(policies + [p], runs[id].policy).Some? {
      PolicyInGrows(policies, p, runs[id].policy);
    }
  }

  /** With a new policy every OPEN run is for the moment bound to the old one. */
  lemma AddPolicy(db: Db, p: Policy)
    requires Inv(db) && PolicyConstraints(p) && p.generation == |db.policies| + 1
    ensures Good(db, db.(policies := db.policies + [p]), Exempt(set id | id in OpenRunIds(db), {}, {}))
  {
    hide Kept, Extends, Quiet, RunsOk, StreamsOk, ChecksOk, ReviewsOk, ClearsOk, PolicyConstraints;
    var d, open := db.(policies := db.policies + [p]), set id | id in OpenRunIds(db);
    PolicyExtends(db, p);
    ClearsCarry(db, d);
    RunsOkPolicies(db.policies, db.runs, p, open);
    ChecksOkPolicies(db, p);
  }

  lemma PolicyExtends(db: Db, p: Policy)
    requires Kept(db)
    ensures var d := db.(policies := db.policies + [p]); Kept(d) && Extends(db, d) && Quiet(db, d)
  {
    hide Kept;
    KeptSame(db, db.(policies := db.policies + [p]));
  }

  lemma NextGeneration(policies: seq<Policy>, p: Policy)
    requires PoliciesOk(policies)
    requires if Newest(policies).None? then p.generation == 1 else p.generation == Newest(policies).value.generation + 1
    ensures p.generation == |policies| + 1
  {
    hide PolicyConstraints;
  }

  lemma ReplacedRuns(db: Db, now: nat, r: Run)
    ensures ExpireReviews(StaleChecks(Put(db, now, RunPaused, ARun(r)), now, r.id), now, r.id).runs
            == db.runs[r.id := r]
  {
    hide RowOf, NextEvent;
  }

  lemma LessOne(ids: seq<Id>, x: Exempt, y: Exempt)
    requires ids != [] && forall i, j | 0 <= i < j < |ids| :: ids[i] != ids[j]
    requires x == Exempt(set id | id in ids, {}, {}) && y == Exempt(set id | id in ids[1..], {}, {})
    ensures Exempt(x.unbound - {ids[0]}, x.over - {ids[0]}, x.late - {ids[0]}) == y
  {
    assert ids == [ids[0]] + ids[1..];
  }

  lemma {:induction false} ReplaceAllKeeps(db: Db, now: nat, ids: seq<Id>)
    requires InvBut(db, Exempt(set id | id in ids, {}, {})) && HasRuns(db, ids)
    requires forall i | 0 <= i < |ids| :: db.runs[ids[i]].state == Open
    requires forall i, j | 0 <= i < j < |ids| :: ids[i] != ids[j]
    ensures Good(db, ReplaceAll(db, now, ids), NONE)
    decreases |ids|
  {
    hide Kept, Extends, Quiet, PoliciesOk, RunsOk, StreamsOk, ChecksOk, ReviewsOk, ClearsOk, Put, StaleChecks,
         ExpireReviews;
    var x := Exempt(set id | id in ids, {}, {});
    if ids == [] {
      assert x == NONE;
      Unchanged(db, x);
    } else {
      Keyed(db);
      var r := Halt(db.runs[ids[0]], Paused, "POLICY_REPLACED");
      HaltAll(db, x, now, RunPaused, r, Stale, "STALE");
      var d := ExpireReviews(StaleChecks(Put(db, now, RunPaused, ARun(r)), now, ids[0]), now, ids[0]);
      var y := Exempt(set id | id in ids[1..], {}, {});
      LessOne(ids, x, y);
      ReplacedRuns(db, now, r);
      assert Good(db, d, y) by { StaleIsFinish(Put(db, now, RunPaused, ARun(r)), now, r.id); }
      ReplaceAllKeeps(d, now, ids[1..]);
      Then(db, d, ReplaceAll(d, now, ids[1..]), y, NONE);
    }
  }

  lemma StaleIsFinish(db: Db, now: nat, run: Id)
    ensures StaleChecks(db, now, run) == FinishAll(db, now, EvaluatingIds(db, Some(run)), Stale, "STALE")
  {}

  lemma ActivateKeeps(cfg: Config, db: Db, host: HostState, now: nat, sp: Signed<Policy>, e: Counter)
    requires Inv(db)
    ensures Activate(cfg, db, host, now, sp, e).Commit? ==> Good(db, Activate(cfg, db, host, now, sp, e).db, NONE)
  {
    hide Kept, Extends, Quiet, PoliciesOk, RunsOk, StreamsOk, ChecksOk, ReviewsOk, ClearsOk, PolicyConstraints,
         Installed, ReplaceAll, RowOf, NextEvent;
    if Activate(cfg, db, host, now, sp, e).Commit? {
      var p := sp.body;
      NextGeneration(db.policies, p);
      var x := Exempt(set id | id in OpenRunIds(db), {}, {});
      var d1 := db.(policies := db.policies + [p]);
      AddPolicy(db, p);
      var d2 := Put(d1, now, PolicyActivated, APolicy(p));
      PutOther(d1, x, now, PolicyActivated, APolicy(p));
      Then(db, d1, d2, x, x);
      var ids := OpenRunIds(d2);
      assert (set id | id in ids) == x.unbound;
      assert forall i | 0 <= i < |ids| :: ids[i] in ids;
      ReplaceAllKeeps(d2, now, ids);
      Then(db, d2, ReplaceAll(d2, now, ids), x, NONE);
    }
  }

  // ---- runs.open, runs.control ----

  lemma StartKeeps(cfg: Config, db: Db, host: HostState, now: nat, p: Principal, q: Request)
    requires Inv(db) && q.OpenRun?
    ensures Start(cfg, db, host, now, p, q).Commit? ==> Good(db, Start(cfg, db, host, now, p, q).db, NONE)
  {
    hide Kept, Extends, Quiet, PoliciesOk, RunsOk, StreamsOk, ChecksOk, ReviewsOk, ClearsOk;
    if Start(cfg, db, host, now, p, q).Commit? {
      var r := Run(q.id, 1, q.source, q.sourceEpoch, p.id, q.guardEpoch, q.boot, q.mode, q.profile, Open,
                   q.policyDigest, EMPTY_HEAD, None, None, FRESH, None);
      PutNewRun(db, now, r);
    }
  }

  lemma NoExemption(x: Exempt, id: Id)
    requires x == NONE
    ensures Exempt(x.unbound - {id}, x.over, x.late - {id}) == NONE
    ensures Exempt(x.unbound - {id}, x.over - {id}, x.late - {id}) == NONE
  {
    assert {} - {id} == {};
  }

  lemma PauseKeeps(db: Db, now: nat, r: Run, why: string)
    requires Inv(db) && r.id in db.runs && r == db.runs[r.id] && r.state in {Open, Paused}
    ensures Good(db, StaleChecks(Put(db, now, RunPaused, ARun(Halt(r, Paused, why))), now, r.id), NONE)
  {
    hide Kept, Extends, Quiet, PoliciesOk, RunsOk, StreamsOk, ChecksOk, ReviewsOk, ClearsOk;
    HaltStale(db, NONE, now, RunPaused, Halt(r, Paused, why));
    NoExemption(NONE, r.id);
  }

  lemma EndKeeps(db: Db, now: nat, kind: Kind, r: Run, state: RunState, why: string, check: CheckState, note: string)
    requires Inv(db) && r.id in db.runs && r == db.runs[r.id] && r.state != Closed
    requires (state == Closed && kind == RunClosed)
             || (state == Quarantined && kind == RunQuarantined && r.state in {Open, Paused})
    requires Terminal(check) && check != CClear
    ensures var d := Put(db, now, kind, ARun(Halt(r, state, why)));
            Good(db, ExpireReviews(FinishAll(d, now, EvaluatingIds(d, Some(r.id)), check, note), now, r.id), NONE)
  {
    hide Kept, Extends, Quiet, PoliciesOk, RunsOk, StreamsOk, ChecksOk, ReviewsOk, ClearsOk;
    HaltAll(db, NONE, now, kind, Halt(r, state, why), check, note);
    NoExemption(NONE, r.id);
  }

  lemma ControlKeeps(db: Db, host: HostState, now: Counter, p: Principal, id: Id, e: nat, a: RunAction, why: string)
    requires Inv(db)
    ensures Control(db, host, now, p, id, e, a, why).Commit? ==>
              Good(db, Control(db, host, now, p, id, e, a, why).db, NONE)
  {
    hide Kept, Extends, Quiet, PoliciesOk, RunsOk, StreamsOk, ChecksOk, ReviewsOk, ClearsOk;
    if Control(db, host, now, p, id, e, a, why).Commit? {
      Keyed(db);
      var r := db.runs[id];
      match a
      case Pause => PauseKeeps(db, now, r, why);
      case Resume =>
        PutRun(db, NONE, now, RunResumed, r.(state := Open, pauseReason := None, revision := r.revision + 1));
      case Close => EndKeeps(db, now, RunClosed, r, Closed, why, Cancelled, "CANCELLED");
    }
  }

  // ---- checks.cancel ----

  lemma CancelKeeps(db: Db, host: HostState, now: nat, p: Principal, id: Id, e: nat)
    requires Inv(db)
    ensures Cancel(db, host, now, p, id, e).Commit? ==> Good(db, Cancel(db, host, now, p, id, e).db, NONE)
  {
    hide Kept, Extends, Quiet, PoliciesOk, RunsOk, StreamsOk, ChecksOk, ReviewsOk, ClearsOk;
    Keyed(db);
    if Cancel(db, host, now, p, id, e).Commit? {
      PutFinished(db, NONE, now, Finish(db.checks[id], Cancelled, "CANCELLED"));
    }
  }

  // ---- reviews.claim, reviews.resolve ----

  lemma ClaimedLegal(reviews: map<Id, Review>, v: Review, p: Principal, now: nat, lease: nat)
    requires v.id in reviews && reviews[v.id] == v && v.state in {ROpen, Claimed}
    ensures LegalReview(reviews, ClaimedBy(v, p, now, lease))
  {}

  /** The review change a claim commits, whichever branch commits it. */
  lemma ClaimKeeps(db: Db, host: HostState, now: Counter, p: Principal, named: Option<Id>, e: Option<nat>)
    requires Inv(db)
    ensures Claim(db, host, now, p, named, e).Commit? ==> Good(db, Claim(db, host, now, p, named, e).db, NONE)
  {
    hide Kept, Extends, Quiet, PoliciesOk, RunsOk, StreamsOk, ChecksOk, ReviewsOk, ClearsOk, Protocol.NextOpen, Put,
         PolicyIn, Expire, LegalReview;
    Keyed(db);
    NextOpenIsThere(db);
    if Claim(db, host, now, p, named, e).Commit? {
      var v := if named.None? then NextOpen(db).value else db.reviews[named.value];
      assert v.id in db.reviews && db.reviews[v.id] == v;
      if now >= v.dueMs {
        ExpiredLegal(db.reviews, v);
        PutReview(db, NONE, now, ReviewExpired, Expire(v));
      } else {
        var lease := RunPolicy(db, v.run).value.claimLeaseMs;
        ClaimedLegal(db.reviews, v, p, now, lease);
        PutClaim(db, now, v, ClaimedBy(v, p, now, lease));
      }
    }
  }

  lemma ExpiredLegal(reviews: map<Id, Review>, v: Review)
    requires v.id in reviews && reviews[v.id] == v
    ensures Expire(v).id == v.id && LegalReview(reviews, Expire(v)) && KindFits(ReviewExpired, AReview(Expire(v)))
  {}

  lemma NextOpenIsThere(db: Db)
    requires forall id | id in db.reviews :: db.reviews[id].id == id
    ensures NextOpen(db).Some? ==>
              NextOpen(db).value.id in db.reviews && db.reviews[NextOpen(db).value.id] == NextOpen(db).value
  {
    hide Queue.NextOpen;
  }

  lemma PutClaim(db: Db, now: nat, v: Review, v2: Review)
    requires Inv(db) && v2.id in db.reviews && LegalReview(db.reviews, v2) && v2.state == Claimed
    ensures var d := Put(db, now, ReviewClaimed, AReview(v2));
            Good(db, Served(d, v), NONE)
  {
    hide Kept, Quiet, PoliciesOk, RunsOk, StreamsOk, ChecksOk, ReviewsOk, ClearsOk, LegalReview;
    var d := Put(db, now, ReviewClaimed, AReview(v2));
    var d2 := d.(cursors := d.cursors[Queue.Rank(v.level) := v.run]);
    PutReview(db, NONE, now, ReviewClaimed, v2);
    CursorExtends(d, d2.cursors);
    SideTables(d, d2, NONE);
    Then(db, d, d2, NONE, NONE);
  }

  lemma CursorExtends(db: Db, cursors: map<nat, Id>)
    ensures Extends(db, db.(cursors := cursors))
  {}

  lemma LatchExtends(db: Db, v: Review, a: ReviewAction)
    ensures Extends(db, LatchRejected(db, v, a))
  {}

  lemma ResolvedLegal(reviews: map<Id, Review>, v: Review, a: ReviewAction, now: nat, ms: nat, wake: Option<Counter>,
                      why: string, who: Id)
    requires v.id in reviews && reviews[v.id] == v && Protocol.Legal(v, a) && v.owner == Some(who)
    ensures LegalReview(reviews, Resolved(v, a, now, ms, wake)
                                 .(revision := v.revision + 1, resolution := Some(why), resolvedBy := Some(who)))
  {}

  lemma PutResolved(db: Db, now: nat, v: Review, a: ReviewAction, v2: Review)
    requires Inv(db) && v2.id in db.reviews && LegalReview(db.reviews, v2) && KindFits(ResolveKind(a), AReview(v2))
    ensures Good(db, LatchRejected(Put(db, now, ResolveKind(a), AReview(v2)), v, a), NONE)
  {
    hide Kept, Extends, Quiet, PoliciesOk, RunsOk, StreamsOk, ChecksOk, ReviewsOk, ClearsOk, LegalReview;
    var d := Put(db, now, ResolveKind(a), AReview(v2));
    PutReview(db, NONE, now, ResolveKind(a), v2);
    LatchExtends(d, v, a);
    SideTables(d, LatchRejected(d, v, a), NONE);
    Then(db, d, LatchRejected(d, v, a), NONE, NONE);
  }

  lemma ResolveKeeps(db: Db, host: HostState, now: nat, p: Principal, q: Request)
    requires Inv(db) && q.ResolveReview?
    ensures Resolve(db, host, now, p, q).Commit? ==> Good(db, Resolve(db, host, now, p, q).db, NONE)
  {
    hide Kept, Extends, Quiet, PoliciesOk, RunsOk, StreamsOk, ChecksOk, ReviewsOk, ClearsOk, Put, LatchRejected;
    Keyed(db);
    if Resolve(db, host, now, p, q).Commit? {
      var v := db.reviews[q.id];
      if now >= v.dueMs {
        PutReview(db, NONE, now, ReviewExpired, Expire(v));
      } else if v.state == Claimed && v.leaseUntilMs.Some? && now >= v.leaseUntilMs.value {
        PutReview(db, NONE, now, ReviewReleased, Reopen(v));
      } else {
        var pol := RunPolicy(db, v.run);
        var ms := if pol.Some? then pol.value.reviewAcceptMs else 0;
        ResolvedLegal(db.reviews, v, q.resolution, now, ms, q.wakeMs, q.reason, p.id);
        PutResolved(db, now, v, q.resolution, Resolved(v, q.resolution, now, ms, q.wakeMs)
                    .(revision := v.revision + 1, resolution := Some(q.reason), resolvedBy := Some(p.id)));
      }
    }
  }
}
