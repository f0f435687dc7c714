/** What claiming and resolving a review must do: whose decision is taken, what becomes of the review, and what a
    rejection leaves behind. */
module Reviewing {
  import opened Basics
  import opened Ids
  import opened Records
  import opened Store
  import opened Protocol
  import opened Timers
  import opened Safety
  import opened Invariants
  import opened Steps
  import opened Effects
  import opened Admission
  import Queue

  /** One review changes, and nothing else moves. */
  ghost predicate ReviewBecomes(db: Db, d: Db, v: Review) {
    && KeepsRest(db, d) && d.runs == db.runs && d.checks == db.checks && d.reviews == db.reviews[v.id := v]
  }

  /** The request ends in `code` and commits that change. */
  ghost predicate EndsWith(db: Db, plan: Plan, host: HostState, code: Code, v: Review) {
    plan.Commit? && plan.out == Refused(code) && plan.host == host && ReviewBecomes(db, plan.db, v)
  }

  function ExpiredOf(v: Review): Review {
    v.(state := RExpired, revision := v.revision + 1, owner := None, leaseUntilMs := None)
  }

  function BackInQueue(v: Review): Review {
    v.(state := ROpen, revision := v.revision + 1, owner := None, leaseUntilMs := None)
  }

  lemma PutReviewDoes(db: Db, now: nat, kind: Kind, v: Review)
    ensures ReviewBecomes(db, Put(db, now, kind, AReview(v)), v)
  {
    hide Put;
    PutFrame(db, now, kind, AReview(v));
  }

  lemma ExpireThenFaultDoes(db: Db, host: HostState, now: nat, v: Review)
    ensures EndsWith(db, ExpireThenFault(db, host, now, v), host, LeaseExpired, ExpiredOf(v))
    ensures EndsWith(db, ReleaseThenFault(db, host, now, v), host, LeaseExpired, BackInQueue(v))
  {
    hide Put, ReviewBecomes;
    PutReviewDoes(db, now, ReviewExpired, Expire(v));
    PutReviewDoes(db, now, ReviewReleased, Reopen(v));
  }

  lemma RunHasPolicy(db: Db, run: Id)
    requires Inv(db) && run in db.runs
    ensures db.runs[run].policy.OfPolicy? && db.runs[run].policy.policy in db.policies
    ensures RunPolicy(db, run) == Some(db.runs[run].policy.policy)
  {
    hide Kept, PoliciesOk, StreamsOk, ChecksOk, ReviewsOk, ClearsOk;
  }

  lemma ReviewHasRun(db: Db, id: Id)
    requires Inv(db) && id in db.reviews
    ensures db.reviews[id].run in db.runs && db.reviews[id].id == id
  {
    hide Kept, PoliciesOk, StreamsOk, ChecksOk, RunsOk, ClearsOk;
    Keyed(db);
  }

  /** The policy a review's run is bound to. */
  function PolicyFor(db: Db, v: Review): Policy
    requires v.run in db.runs && db.runs[v.run].policy.OfPolicy?
  {
    db.runs[v.run].policy.policy
  }

  // ---- reviews.claim ----

  /** The turn of a level moves on to the run just served. */
  function TurnOf(level: Level): nat { match level case Critical => 0 case Warning => 1 case Info => 2 }

  /** A claim of review v: past its due instant it expires it; it takes it if it is OPEN, or again if the caller holds
      it, until the lease ends or the review is due; otherwise it is refused and nothing moves. */
  lemma ClaimDoes(db: Db, host: HostState, now: Counter, p: Principal, named: Option<Id>, expected: Option<nat>, id: Id)
    requires Inv(db) && id in db.reviews && Found(db, named) == Some(db.reviews[id])
    ensures var plan, v := Claim(db, host, now, p, named, expected), db.reviews[id];
            && v.run in db.runs && db.runs[v.run].policy.OfPolicy?
            && if expected.Some? && v.revision != expected.value then plan == Refuse(RevisionConflict)
               else if now >= v.dueMs then EndsWith(db, plan, host, LeaseExpired, ExpiredOf(v))
               else if v.state == ROpen || (v.state == Claimed && v.owner == Some(p.id)) then
                 var lease := now + PolicyFor(db, v).claimLeaseMs;
                 && plan.Commit? && plan.host == host && plan.out == Changed(id, v.revision + 1, "CLAIMED")
                 && plan.db.cursors == db.cursors[TurnOf(v.level) := v.run]
                 && ReviewBecomes(db.(cursors := plan.db.cursors), plan.db,
                                  v.(state := Claimed, owner := Some(p.id), revision := v.revision + 1,
                                     leaseUntilMs := Some(if lease < v.dueMs then lease else v.dueMs)))
               else plan == Refuse(StateConflict)
  {
    hide Inv, Put, RunPolicy, Queue.NextOpen, Found, EndsWith, ReviewBecomes, ExpireThenFault, Served, ClaimedBy;
    ReviewHasRun(db, id);
    RunHasPolicy(db, db.reviews[id].run);
    var v := db.reviews[id];
    ExpireThenFaultDoes(db, host, now, v);
    TakenDoes(db, now, p, v, PolicyFor(db, v).claimLeaseMs);
  }

  lemma TakenDoes(db: Db, now: nat, p: Principal, v: Review, lease: nat)
    ensures var d := Served(Put(db, now, ReviewClaimed, AReview(ClaimedBy(v, p, now, lease))), v);
            && d.cursors == db.cursors[TurnOf(v.level) := v.run]
            && ClaimedBy(v, p, now, lease).revision == v.revision + 1
            && ReviewBecomes(db.(cursors := d.cursors), d,
                             v.(state := Claimed, owner := Some(p.id), revision := v.revision + 1,
                                leaseUntilMs := Some(if now + lease < v.dueMs then now + lease else v.dueMs)))
  {
    hide Put;
    PutFrame(db, now, ReviewClaimed, AReview(ClaimedBy(v, p, now, lease)));
  }

  /** A claim by name is about that review, or about nothing if there is none. */
  lemma ClaimByName(db: Db, host: HostState, now: Counter, p: Principal, id: Id, expected: Option<nat>)
    ensures id !in db.reviews ==> Claim(db, host, now, p, Some(id), expected) == Refuse(NotFound)
    ensures id in db.reviews ==> Found(db, Some(id)) == Some(db.reviews[id])
  {
    hide ClaimThis;
  }

  // ---- reviews.resolve ----

  /** Whether the holder of a claim may decide so. */
  predicate Decidable(v: Review, q: Request, now: nat)
    requires q.ResolveReview?
  {
    match q.resolution
    case AcceptRisk => v.kind == Blocking
    case Reject => v.kind == Blocking
    case Annotate => v.kind == Trailing
    case Release => true
    case Defer => q.wakeMs.Some? && now < q.wakeMs.value < v.dueMs
  }

  /** What becomes of the review. An acceptance lasts `accept` milliseconds, and never past the due instant. */
  function Decided(v: Review, q: Request, now: nat, who: Id, accept: nat): Review
    requires q.ResolveReview?
  {
    var w := v.(revision := v.revision + 1, resolution := Some(q.reason), resolvedBy := Some(who));
    match q.resolution
    case AcceptRisk =>
      w.(state := Accepted, acceptedUntilMs := Some(if now + accept < v.dueMs then now + accept else v.dueMs))
    case Reject => w.(state := Rejected)
    case Annotate => w.(state := RClosed)
    case Release => w.(state := ROpen, owner := None, leaseUntilMs := None)
    case Defer =>
      w.(state := Deferred, owner := None, leaseUntilMs := None,
         wakeMs := if q.wakeMs.Some? then Some(q.wakeMs.value as nat) else None)
  }

  /** The bindings after a decision: rejecting a blocking review rejects the action its check was for. */
  ghost predicate Binds(db: Db, d: Db, v: Review, rejected: bool) {
    if rejected && v.check.Some? && v.check.value in db.checks
       && (v.run, db.checks[v.check.value].intent.action) in db.actions
    then
      var key := (v.run, db.checks[v.check.value].intent.action);
      d.actions == db.actions[key := Binding(db.actions[key].intent, true)]
    else d.actions == db.actions
  }

  /** A decision on a review: past its due instant the review expires instead, past its lease it goes back to the
      queue, and the caller is told so; a decision of anyone but the holder, or one that does not fit the review,
      changes nothing; the holder's decision takes effect, and a rejection marks the action. */
  lemma ResolveDoes(db: Db, host: HostState, now: Counter, p: Principal, q: Request)
    requires Inv(db) && q.ResolveReview? && q.id in db.reviews && db.reviews[q.id].revision == q.expected
    ensures var plan, v := Resolve(db, host, now, p, q), db.reviews[q.id];
            && v.run in db.runs && db.runs[v.run].policy.OfPolicy?
            && if now >= v.dueMs then EndsWith(db, plan, host, LeaseExpired, ExpiredOf(v))
               else if v.state == Claimed && v.leaseUntilMs.Some? && now >= v.leaseUntilMs.value
               then EndsWith(db, plan, host, LeaseExpired, BackInQueue(v))
               else if v.state == Claimed && v.owner == Some(p.id) && Decidable(v, q, now) then
                 var w := Decided(v, q, now, p.id, PolicyFor(db, v).reviewAcceptMs);
                 && plan.Commit? && plan.host == host && plan.out == Changed(q.id, w.revision, Named(w.state))
                 && Binds(db, plan.db, v, q.resolution == Reject)
                 && ReviewBecomes(db.(actions := plan.db.actions), plan.db, w)
               else plan.Refuse?
  {
    hide Inv, Put, RunPolicy, ReviewStateName, LatchRejected, EndsWith, ReviewBecomes, Binds, ExpireThenFault,
         ReleaseThenFault, Named;
    ReviewHasRun(db, q.id);
    RunHasPolicy(db, db.reviews[q.id].run);
    var v := db.reviews[q.id];
    var w := Decided(v, q, now, p.id, PolicyFor(db, v).reviewAcceptMs);
    ExpireThenFaultDoes(db, host, now, v);
    NamesAgree(w.state);
    if Decidable(v, q, now) { DecisionDoes(db, now, q, v, w); }
  }

  lemma DecisionDoes(db: Db, now: nat, q: Request, v: Review, w: Review)
    requires q.ResolveReview? && Decidable(v, q, now)
    ensures var d := LatchRejected(Put(db, now, ResolveKind(q.resolution), AReview(w)), v, q.resolution);
            Binds(db, d, v, q.resolution == Reject) && ReviewBecomes(db.(actions := d.actions), d, w)
  {
    hide Put, LatchRejected, Binds;
    PutFrame(db, now, ResolveKind(q.resolution), AReview(w));
    LatchBinds(db, Put(db, now, ResolveKind(q.resolution), AReview(w)), v, q.resolution);
  }

  function Named(s: ReviewState): string {
    match s
    case ROpen => "OPEN" case Claimed => "CLAIMED" case Deferred => "DEFERRED" case Accepted => "ACCEPTED"
    case Consumed => "CONSUMED" case Rejected => "REJECTED" case RClosed => "CLOSED" case RExpired => "EXPIRED"
  }

  lemma NamesAgree(s: ReviewState)
    ensures ReviewStateName(s) == Named(s)
  {}

  lemma LatchBinds(db: Db, d: Db, v: Review, action: ReviewAction)
    requires d.checks == db.checks && d.actions == db.actions && (action == Reject ==> v.kind == Blocking)
    ensures var e := LatchRejected(d, v, action); Binds(db, e, v, action == Reject) && e == d.(actions := e.actions)
  {}

  /** A decision on no review, or on another revision of it, changes nothing. */
  lemma ResolveNeeds(db: Db, host: HostState, now: Counter, p: Principal, q: Request)
    requires q.ResolveReview? && !(q.id in db.reviews && db.reviews[q.id].revision == q.expected)
    ensures Resolve(db, host, now, p, q) == Refuse(if q.id !in db.reviews then NotFound else RevisionConflict)
  {}
}
