/** Each elementary write keeps the invariant, and each handler is a composition of such writes. */
module Steps {
  import opened Basics
  import opened Ids
  import opened Records
  import opened Store
  import opened Detect
  import opened Protocol
  import opened Timers
  import opened Safety
  import opened Invariants

  ghost predicate Good(db: Db, next: Db, x: Exempt) {
    InvBut(next, x) && Extends(db, next) && Quiet(db, next)
  }

  lemma Unchanged(db: Db, x: Exempt)
    requires InvBut(db, x)
    ensures Good(db, db, x)
  {
    hide Kept, PoliciesOk, RunsOk, StreamsOk, ChecksOk, ReviewsOk, ClearsOk;
  }

  lemma Then(a: Db, b: Db, c: Db, x: Exempt, y: Exempt)
    requires Kept(a) && Good(a, b, x) && Good(b, c, y)
    ensures Good(a, c, y)
  {
    hide Kept, PoliciesOk, RunsOk, StreamsOk, ChecksOk, ReviewsOk, ClearsOk, Extends, Quiet;
    ExtendsTransitive(a, b, c);
  }

  lemma Emitted(db: Db, now: nat, kind: Kind, s: Subject)
    requires Kept(db) && LegalSubject(db.runs, db.checks, db.reviews, s) && KindFits(kind, s)
    ensures Kept(Put(db, now, kind, s)) && Extends(db, Put(db, now, kind, s))
    ensures !(s.ACheck? && s.check.state == CClear) ==> Quiet(db, Put(db, now, kind, s))
  {
    hide Kept, KindFits, LegalSubject;
    PutKeeps(db, now, kind, s);
  }

  /** An event about the host, a policy or a window touches no table. */
  lemma PutOther(db: Db, x: Exempt, now: nat, kind: Kind, s: Subject)
    requires InvBut(db, x) && (s.AHost? || s.APolicy? || (s.AWindow? && AllUnavailable(s.findings)))
    requires KindFits(kind, s)
    ensures Good(db, Put(db, now, kind, s), x)
  {
    hide Kept, PoliciesOk, StreamsOk, ClearsOk, RunsOk, ChecksOk, ReviewsOk, Extends, Quiet;
    var d := Put(db, now, kind, s);
    Emitted(db, now, kind, s);
    ClearsCarry(db, d);
  }

  // ---- runs ----

  /** The exemptions after run r was overwritten: a halted run owes its checks, an ended one its reviews too. */
  function Owing(x: Exempt, r: Run): Exempt {
    if r.state == Open then x
    else Exempt(x.unbound - {r.id}, if r.state == Paused then x.over else x.over + {r.id}, x.late + {r.id})
  }

  /** What a run's new value must be for the tables around it to stay right. */
  ghost predicate RunMove(db: Db, r: Run) {
    && r.id in db.runs && LegalRun(db.runs, r)
    && r.cursor == db.runs[r.id].cursor && r.lastCutMs == db.runs[r.id].lastCutMs
    && (r.state == Open ==> db.runs[r.id].state == Paused && Bound(db.policies, r))
  }

  lemma RunsOkSet(policies: seq<Policy>, runs: map<Id, Run>, x: Exempt, r: Run)
    requires RunsOk(policies, runs, x.unbound) && r.id in runs && r.policy == runs[r.id].policy
    requires r.state == Open ==> Bound(policies, r)
    ensures RunsOk(policies, runs[r.id := r], Owing(x, r).unbound)
  {}

  lemma StreamsOkSet(runs: map<Id, Run>, streams: Streams, r: Run)
    requires StreamsOk(runs, streams) && r.id in runs && SameRunIdentity(runs[r.id], r)
    requires r.cursor == runs[r.id].cursor && r.lastCutMs == runs[r.id].lastCutMs
    ensures StreamsOk(runs[r.id := r], streams)
  {
    hide StreamOk;
    StreamOkSame(runs[r.id], r, StreamIn(streams, r.id));
  }

  lemma StreamOkSame(a: Run, b: Run, os: seq<Observation>)
    requires StreamOk(a, os) && SameRunIdentity(a, b) && a.cursor == b.cursor && a.lastCutMs == b.lastCutMs
    ensures StreamOk(b, os)
  {
    forall i | 0 <= i < |os| ensures LinkOk(b, os, i) { assert LinkOk(a, os, i); }
  }

  lemma ChecksOkRuns(db: Db, x: Exempt, r: Run)
    requires ChecksOk(db.policies, db.observations, db.slots, db.runs, db.checks, x.late)
    requires r.id in db.runs && (r.state == Open ==> db.runs[r.id].state != Open)
    ensures ChecksOk(db.policies, db.observations, db.slots, db.runs[r.id := r], db.checks, Owing(x, r).late)
  {
    hide SlotsOk;
    forall id | id in db.checks && db.checks[id].state == Evaluating && db.checks[id].run !in Owing(x, r).late
      ensures EvaluatingOk(db.runs[r.id := r], db.checks[id])
    {
      assert EvaluatingOk(db.runs, db.checks[id]);
    }
  }

  lemma ReviewsOkRuns(runs: map<Id, Run>, checks: map<Id, Check>, reviews: map<Id, Review>, x: Exempt, r: Run)
    requires ReviewsOk(runs, checks, reviews, x.over) && r.id in runs
    ensures ReviewsOk(runs[r.id := r], checks, reviews, Owing(x, r).over)
  {}

  lemma PutRun(db: Db, x: Exempt, now: nat, kind: Kind, r: Run)
    requires InvBut(db, x) && RunMove(db, r) && KindFits(kind, ARun(r))
    ensures Good(db, Put(db, now, kind, ARun(r)), Owing(x, r))
  {
    hide Kept, Extends, Quiet, PoliciesOk, RunsOk, StreamsOk, ChecksOk, ReviewsOk, ClearsOk;
    Emitted(db, now, kind, ARun(r));
    ClearsCarry(db, Put(db, now, kind, ARun(r)));
    RunsOkSet(db.policies, db.runs, x, r);
    StreamsOkSet(db.runs, db.observations, r);
    ChecksOkRuns(db, x, r);
    ReviewsOkRuns(db.runs, db.checks, db.reviews, x, r);
  }

  /** What the drift reducer writes changes nothing that other tables depend on. */
  lemma DriftKeeps(db: Db, now: nat, r: Run)
    requires Inv(db) && r.id in db.runs && db.runs[r.id].state in {Open, Paused}
    requires r == db.runs[r.id].(drift := r.drift, revision := db.runs[r.id].revision + 1)
    ensures Good(db, Put(db, now, DriftUpdated, ARun(r)), NONE)
  {
    hide Kept, Extends, Quiet, PoliciesOk, RunsOk, StreamsOk, ChecksOk, ReviewsOk, ClearsOk;
    Emitted(db, now, DriftUpdated, ARun(r));
    ClearsCarry(db, Put(db, now, DriftUpdated, ARun(r)));
    SameRunOk(db, r);
    StreamsOkSet(db.runs, db.observations, r);
    SameRunReviews(db.runs, db.checks, db.reviews, r);
  }

  lemma SameRunOk(db: Db, r: Run)
    requires r.id in db.runs && r.state == db.runs[r.id].state && r.policy == db.runs[r.id].policy
    ensures RunsOk(db.policies, db.runs, {}) ==> RunsOk(db.policies, db.runs[r.id := r], {})
    ensures ChecksOk(db.policies, db.observations, db.slots, db.runs, db.checks, {}) ==>
              ChecksOk(db.policies, db.observations, db.slots, db.runs[r.id := r], db.checks, {})
  {
    hide SlotsOk;
    assert forall id | id in db.checks && EvaluatingOk(db.runs, db.checks[id]) ::
        EvaluatingOk(db.runs[r.id := r], db.checks[id]);
  }

  lemma SameRunReviews(runs: map<Id, Run>, checks: map<Id, Check>, reviews: map<Id, Review>, r: Run)
    requires ReviewsOk(runs, checks, reviews, {}) && r.id in runs && r.state == runs[r.id].state
    ensures ReviewsOk(runs[r.id := r], checks, reviews, {})
  {}

  lemma NewRunOk(db: Db, r: Run)
    requires r.id !in db.runs && Bound(db.policies, r) && r.cursor == EMPTY_HEAD && r.lastCutMs == None
    requires RunsOk(db.policies, db.runs, {}) && StreamsOk(db.runs, db.observations)
    ensures RunsOk(db.policies, db.runs[r.id := r], {}) && StreamsOk(db.runs[r.id := r], db.observations)
  {
    assert StreamIn(db.observations, r.id) == [];
    assert StreamOk(r, []);
    hide StreamOk;
  }

  lemma NewRunChecks(db: Db, r: Run)
    requires r.id !in db.runs
    requires ChecksOk(db.policies, db.observations, db.slots, db.runs, db.checks, {})
    ensures ChecksOk(db.policies, db.observations, db.slots, db.runs[r.id := r], db.checks, {})
  {
    hide SlotsOk;
    forall id | id in db.checks && db.checks[id].state == Evaluating
      ensures EvaluatingOk(db.runs[r.id := r], db.checks[id])
    {
      assert EvaluatingOk(db.runs, db.checks[id]);
    }
  }

  lemma NewRunReviews(runs: map<Id, Run>, checks: map<Id, Check>, reviews: map<Id, Review>, r: Run)
    requires r.id !in runs && ReviewsOk(runs, checks, reviews, {})
    ensures ReviewsOk(runs[r.id := r], checks, reviews, {})
  {}

  lemma PutNewRun(db: Db, now: nat, r: Run)
    requires Inv(db) && r.id !in db.runs && LegalRun(db.runs, r) && Bound(db.policies, r)
    requires r.cursor == EMPTY_HEAD && r.lastCutMs == None
    ensures Good(db, Put(db, now, RunOpened, ARun(r)), NONE)
  {
    hide Kept, Extends, Quiet, PoliciesOk, RunsOk, StreamsOk, ChecksOk, ReviewsOk, ClearsOk;
    Emitted(db, now, RunOpened, ARun(r));
    ClearsCarry(db, Put(db, now, RunOpened, ARun(r)));
    NewRunOk(db, r);
    NewRunChecks(db, r);
    NewRunReviews(db.runs, db.checks, db.reviews, r);
  }

  // ---- checks ----

  lemma ChecksOkFinish(db: Db, late: set<Id>, c: Check)
    requires ChecksOk(db.policies, db.observations, db.slots, db.runs, db.checks, late)
    requires c.id in db.checks && LegalCheck(db.checks, c)
    ensures ChecksOk(db.policies, db.observations, db.slots, db.runs, db.checks[c.id := c], late)
  {
    SlotsOkSame(db, db.checks[c.id], c);
    hide SlotsOk;
  }

  lemma SlotsOkSame(db: Db, a: Check, b: Check)
    requires SlotsOk(db.policies, db.observations, db.slots, a) && SameCheckIdentity(a, b)
    ensures SlotsOk(db.policies, db.observations, db.slots, b)
  {
    var p, o := PolicyIn(db.policies, a.policy).value, RefIn(db.observations, a.observation).value;
    forall i | 0 <= i < |p.monitors| ensures SlotOk(p.monitors[i], p, o, b, SlotsIn(db.slots, b.id)) {
      assert SlotOk(p.monitors[i], p, o, a, SlotsIn(db.slots, a.id));
    }
  }

  lemma ReviewsOkFinish(runs: map<Id, Run>, checks: map<Id, Check>, reviews: map<Id, Review>, over: set<Id>, c: Check)
    requires ReviewsOk(runs, checks, reviews, over) && Terminal(c.state)
    ensures ReviewsOk(runs, checks[c.id := c], reviews, over)
  {}

  /** Finalizing one check without a clearance. */
  lemma PutFinished(db: Db, x: Exempt, now: nat, c: Check)
    requires InvBut(db, x) && c.id in db.checks && LegalCheck(db.checks, c) && c.state != CClear
    ensures Good(db, Put(db, now, CheckFinalized, ACheck(c)), x)
  {
    hide Kept, Extends, Quiet, PoliciesOk, RunsOk, StreamsOk, ChecksOk, ReviewsOk, ClearsOk;
    Emitted(db, now, CheckFinalized, ACheck(c));
    ClearsCarry(db, Put(db, now, CheckFinalized, ACheck(c)));
    ChecksOkFinish(db, x.late, c);
    ReviewsOkFinish(db.runs, db.checks, db.reviews, x.over, c);
  }

  /** Finishing a list of checks one by one is the simultaneous update. */
  lemma {:induction false} FinishAllMap(db: Db, now: nat, ids: seq<Id>, state: CheckState, why: string)
    requires HasChecks(db, ids) && (forall id | id in db.checks :: db.checks[id].id == id)
    requires forall i, j | 0 <= i < j < |ids| :: ids[i] != ids[j]
    ensures FinishAll(db, now, ids, state, why).checks
            == map id | id in db.checks :: if id in ids then Finish(db.checks[id], state, why) else db.checks[id]
    decreases |ids|
  {
    hide Put;
    if ids != [] {
      PutFrame(db, now, CheckFinalized, ACheck(Finish(db.checks[ids[0]], state, why)));
      FinishAllMap(Put(db, now, CheckFinalized, ACheck(Finish(db.checks[ids[0]], state, why))),
                   now, ids[1..], state, why);
      assert ids == [ids[0]] + ids[1..];
    }
  }

  lemma {:induction false} FinishAllKeeps(db: Db, x: Exempt, now: nat, ids: seq<Id>, state: CheckState, why: string)
    requires InvBut(db, x) && HasChecks(db, ids) && Terminal(state) && state != CClear
    requires forall i | 0 <= i < |ids| :: db.checks[ids[i]].state == Evaluating
    requires forall i, j | 0 <= i < j < |ids| :: ids[i] != ids[j]
    ensures Good(db, FinishAll(db, now, ids, state, why), x)
    decreases |ids|
  {
    hide Kept, Extends, Quiet, PoliciesOk, RunsOk, StreamsOk, ChecksOk, ReviewsOk, ClearsOk;
    Keyed(db);
    if ids == [] {
      Unchanged(db, x);
    } else {
      var c := Finish(db.checks[ids[0]], state, why);
      var d := Put(db, now, CheckFinalized, ACheck(c));
      PutFinished(db, x, now, c);
      FinishAllKeeps(d, x, now, ids[1..], state, why);
      Then(db, d, FinishAll(d, now, ids[1..], state, why), x, x);
    }
  }

  /** Once the evaluating checks of a run are finished, what still evaluates belongs to another run and is as it was. */
  lemma OthersEvaluate(db: Db, now: nat, run: Option<Id>, state: CheckState, why: string)
    requires Kept(db) && Terminal(state)
    ensures var d := FinishAll(db, now, EvaluatingIds(db, run), state, why);
            forall id | id in d.checks && d.checks[id].state == Evaluating ::
              run.Some? && d.checks[id].run != run.value && id in db.checks && d.checks[id] == db.checks[id]
  {
    hide Kept, FinishAll;
    Keyed(db);
    FinishAllMap(db, now, EvaluatingIds(db, run), state, why);
  }

  /** After the EVALUATING checks of a run (or of all runs) are finished, none is late any more. */
  lemma FinishRun(db: Db, x: Exempt, now: nat, run: Option<Id>, state: CheckState, why: string)
    requires InvBut(db, x) && Terminal(state) && state != CClear
    ensures var d := FinishAll(db, now, EvaluatingIds(db, run), state, why);
            && Good(db, d, x.(late := if run.None? then {} else x.late - {run.value}))
            && (forall id | id in d.checks && d.checks[id].state == Evaluating ::
                  run.Some? && d.checks[id].run != run.value && id in db.checks && d.checks[id] == db.checks[id])
  {
    hide Kept, Extends, Quiet, PoliciesOk, RunsOk, StreamsOk, ChecksOk, ReviewsOk, ClearsOk, FinishAll, Finish;
    var ids := EvaluatingIds(db, run);
    var d := FinishAll(db, now, ids, state, why);
    assert forall i | 0 <= i < |ids| :: db.checks[ids[i]].state == Evaluating by {
      assert forall i | 0 <= i < |ids| :: ids[i] in ids;
    }
    FinishAllKeeps(db, x, now, ids, state, why);
    OthersEvaluate(db, now, run, state, why);
    NoneLate(d, x.late, if run.None? then {} else x.late - {run.value});
  }

  lemma NoneLate(db: Db, late: set<Id>, left: set<Id>)
    requires ChecksOk(db.policies, db.observations, db.slots, db.runs, db.checks, late)
    requires forall id | id in db.checks && db.checks[id].state == Evaluating && db.checks[id].run in late ::
               db.checks[id].run in left
    ensures ChecksOk(db.policies, db.observations, db.slots, db.runs, db.checks, left)
  {
    hide SlotsOk;
  }

  // ---- reviews ----

  /** Changing a review within the lawful moves. */
  lemma PutReview(db: Db, x: Exempt, now: nat, kind: Kind, v: Review)
    requires InvBut(db, x) && v.id in db.reviews && LegalReview(db.reviews, v) && KindFits(kind, AReview(v))
    ensures Good(db, Put(db, now, kind, AReview(v)), x)
  {
    hide Kept, PoliciesOk, StreamsOk, ClearsOk, RunsOk, ChecksOk, ReviewsOk, Extends, Quiet, Put, LegalReview;
    var d := Put(db, now, kind, AReview(v));
    Emitted(db, now, kind, AReview(v));
    PutFrame(db, now, kind, AReview(v));
    ClearsCarry(db, d);
    ReviewsOkChange(db.runs, db.checks, db.reviews, x.over, v);
  }

  lemma ReviewsOkChange(runs: map<Id, Run>, checks: map<Id, Check>, reviews: map<Id, Review>, over: set<Id>, v: Review)
    requires ReviewsOk(runs, checks, reviews, over) && v.id in reviews && LegalReview(reviews, v)
    ensures ReviewsOk(runs, checks, reviews[v.id := v], over)
  {
    var next := reviews[v.id := v];
    forall a, b | a in next && b in next && SameActiveBasis(next[a], next[b]) ensures a == b {
      assert SameActiveBasis(reviews[a], reviews[b]);
    }
  }

  lemma {:induction false} ExpireAllMap(db: Db, now: nat, ids: seq<Id>)
    requires HasReviews(db, ids) && (forall id | id in db.reviews :: db.reviews[id].id == id)
    requires forall i, j | 0 <= i < j < |ids| :: ids[i] != ids[j]
    ensures ExpireAll(db, now, ids).reviews
            == map id | id in db.reviews :: if id in ids then Expire(db.reviews[id]) else db.reviews[id]
    decreases |ids|
  {
    hide Put;
    if ids != [] {
      PutFrame(db, now, ReviewExpired, AReview(Expire(db.reviews[ids[0]])));
      ExpireAllMap(Put(db, now, ReviewExpired, AReview(Expire(db.reviews[ids[0]]))), now, ids[1..]);
      assert ids == [ids[0]] + ids[1..];
    }
  }

  lemma {:induction false} ExpireAllKeeps(db: Db, x: Exempt, now: nat, ids: seq<Id>)
    requires InvBut(db, x) && HasReviews(db, ids)
    ensures Good(db, ExpireAll(db, now, ids), x)
    decreases |ids|
  {
    hide Kept, Extends, Quiet, PoliciesOk, RunsOk, StreamsOk, ChecksOk, ReviewsOk, ClearsOk;
    Keyed(db);
    if ids == [] {
      Unchanged(db, x);
    } else {
      var v := Expire(db.reviews[ids[0]]);
      var d := Put(db, now, ReviewExpired, AReview(v));
      PutReview(db, x, now, ReviewExpired, v);
      ExpireAllKeeps(d, x, now, ids[1..]);
      Then(db, d, ExpireAll(d, now, ids[1..]), x, x);
    }
  }

  lemma ExpireRun(db: Db, x: Exempt, now: nat, run: Option<Id>)
    requires InvBut(db, x)
    ensures var d := ExpireAll(db, now, ActiveReviewIds(db, run));
            && Good(db, d, x.(over := if run.None? then {} else x.over - {run.value}))
            && (forall id | id in d.reviews && Active(d.reviews[id].state) ::
                  run.Some? && d.reviews[id].run != run.value && id in db.reviews && d.reviews[id] == db.reviews[id])
  {
    hide Kept, Extends, Quiet, PoliciesOk, RunsOk, StreamsOk, ChecksOk, ReviewsOk, ClearsOk, ExpireAll;
    var ids := ActiveReviewIds(db, run);
    var d := ExpireAll(db, now, ids);
    ExpireAllKeeps(db, x, now, ids);
    Keyed(db);
    ExpireAllMap(db, now, ids);
    NoneOver(d.runs, d.checks, d.reviews, x.over, if run.None? then {} else x.over - {run.value});
  }

  lemma NoneOver(runs: map<Id, Run>, checks: map<Id, Check>, reviews: map<Id, Review>, over: set<Id>, left: set<Id>)
    requires ReviewsOk(runs, checks, reviews, over)
    requires forall id | id in reviews && Active(reviews[id].state) && reviews[id].run in over ::
               reviews[id].run in left
    ensures ReviewsOk(runs, checks, reviews, left)
  {}

  // ---- whole halts ----

  /** Pausing a run with its checks going stale. */
  lemma HaltStale(db: Db, x: Exempt, now: nat, kind: Kind, r: Run)
    requires InvBut(db, x) && RunMove(db, r) && r.state != Open && KindFits(kind, ARun(r))
    ensures Good(db, StaleChecks(Put(db, now, kind, ARun(r)), now, r.id),
                 Exempt(x.unbound - {r.id}, if r.state == Paused then x.over else x.over + {r.id}, x.late - {r.id}))
  {
    hide Kept, Extends, Quiet, PoliciesOk, RunsOk, StreamsOk, ChecksOk, ReviewsOk, ClearsOk;
    var d := Put(db, now, kind, ARun(r));
    var y := Exempt(x.unbound - {r.id}, if r.state == Paused then x.over else x.over + {r.id}, x.late + {r.id});
    PutRun(db, x, now, kind, r);
    FinishRun(d, y, now, Some(r.id), Stale, "STALE");
    assert y.late - {r.id} == x.late - {r.id};
    Then(db, d, StaleChecks(d, now, r.id), y, y.(late := x.late - {r.id}));
  }

  /** Ending a run: its checks finish and its reviews expire in the same transaction. */
  lemma HaltAll(db: Db, x: Exempt, now: nat, kind: Kind, r: Run, state: CheckState, why: string)
    requires InvBut(db, x) && RunMove(db, r) && r.state != Open && KindFits(kind, ARun(r))
    requires Terminal(state) && state != CClear
    ensures var d := Put(db, now, kind, ARun(r));
            Good(db, ExpireReviews(FinishAll(d, now, EvaluatingIds(d, Some(r.id)), state, why), now, r.id),
                 Exempt(x.unbound - {r.id}, x.over - {r.id}, x.late - {r.id}))
  {
    hide Kept, Extends, Quiet, PoliciesOk, RunsOk, StreamsOk, ChecksOk, ReviewsOk, ClearsOk;
    var d := Put(db, now, kind, ARun(r));
    var y := Exempt(x.unbound - {r.id}, if r.state == Paused then x.over else x.over + {r.id}, x.late + {r.id});
    PutRun(db, x, now, kind, r);
    FinishRun(d, y, now, Some(r.id), state, why);
    var d2 := FinishAll(d, now, EvaluatingIds(d, Some(r.id)), state, why);
    assert y.late - {r.id} == x.late - {r.id};
    var z := y.(late := x.late - {r.id});
    Then(db, d, d2, y, z);
    ExpireRun(d2, z, now, Some(r.id));
    assert z.over - {r.id} == x.over - {r.id};
    Then(db, d2, ExpireReviews(d2, now, r.id), z, z.(over := x.over - {r.id}));
  }
}
