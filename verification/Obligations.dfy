/** What the daemon must do in every reachable state: whom it lets in, what a served request commits, when a run must
    halt for what its source said, and what a start must have put right before anyone is served. */
module Obligations {
  import opened Basics
  import opened Ids
  import opened Records
  import opened Store
  import opened Protocol
  import opened Timers
  import opened Safety
  import opened Invariants
  import opened System
  import opened Guarantees
  import opened Effects
  import opened Admission
  import opened TimerEffects
  import TB = TokenBucket

  // ---- at the door ----

  /** The role each request takes. */
  predicate MayAsk(p: Principal, q: Request) {
    if q.DrainHost? || q.ActivatePolicy? then Operator in p.roles
    else if q.ControlRun? then Operator in p.roles || Runtime in p.roles
    else if q.ClaimReview? || q.ResolveReview? then Reviewer in p.roles
    else Runtime in p.roles
  }

  /** A READY host serves everything, a DRAINING one what settles work. */
  predicate Serves(state: HostState, q: Request) {
    state == Ready || (state == Draining && (q.ControlRun? || q.CancelCheck? || q.ResolveReview? || q.DrainHost?))
  }

  /** The request reaches its handler. */
  predicate Passes(s: Sys, a: Action)
    requires a.Ask?
  {
    && s.up && MayAsk(a.p, a.q) && (a.p.id, a.rid) !in s.db.idempotency && Serves(s.host.state, a.q)
    && TB.Admits(RateAt(s, a.p.id), s.now)
  }

  /** What a request that does not pass is told, the first that applies; it changes nothing durable. */
  lemma TurnedBack(cfg: Config, s: Sys, a: Action)
    requires a.Ask? && s.up && !Passes(s, a)
    ensures var key := (a.p.id, a.rid);
            && Step(cfg, s, a).db == s.db && Step(cfg, s, a).host == s.host
            && AnswerTo(cfg, s, a) ==
               Replied(if !MayAsk(a.p, a.q) then Refused(Forbidden)
                       else if key in s.db.idempotency then
                         if s.db.idempotency[key].0 == a.q then s.db.idempotency[key].1
                             else Refused(IdempotencyConflict)
                       else if !Serves(s.host.state, a.q) then
                         Refused(if s.host.state == Draining then StateConflict else AuditUnavailable)
                       else Refused(RateLimited))
  {
    hide Handle, TB.Admits, TB.After, Apply;
  }

  /** The tables a commit leaves behind: the handler's, with the reply under the request's key. */
  function Row(a: Action, plan: Plan): Db
    requires a.Ask? && plan.Commit?
  {
    plan.db.(idempotency := plan.db.idempotency[(a.p.id, a.rid) := (a.q, plan.out)])
  }

  /** A request that passes is answered by its handler. What the handler commits is durable together with its reply,
      unless the audit log fails or the process dies before the commit: then nothing is. */
  lemma Served(cfg: Config, s: Sys, a: Action)
    requires a.Ask? && Passes(s, a)
    ensures var plan, next := Handle(cfg, s.db, s.host, s.now, a.p, a.q), Step(cfg, s, a);
            match plan
            case Refuse(c) => next.db == s.db && next.host == s.host && AnswerTo(cfg, s, a) == Replied(Refused(c))
            case Answer(r) => next.db == s.db && next.host == s.host && AnswerTo(cfg, s, a) == Replied(r)
            case Commit(out, _, host) =>
              match a.fate
              case Commits =>
                && next.db == Row(a, plan) && next.host == Host(host, s.host.epoch) && next.up
                && AnswerTo(cfg, s, a) == Replied(out)
              case CrashesAfter => next.db == Row(a, plan) && !next.up && AnswerTo(cfg, s, a) == NoReply
              case CrashesBefore => next.db == s.db && !next.up && AnswerTo(cfg, s, a) == NoReply
              case AuditFails =>
                next.db == s.db && next.host.state == Faulted && !next.up && AnswerTo(cfg, s, a) == NoReply
  {
    hide Handle, TB.Admits, TB.After, AfterCreate;
    var plan := Handle(cfg, s.db, s.host, s.now, a.p, a.q);
    HandlersLeaveRows(cfg, s.db, s.host, s.now, a.p, a.q);
    if plan.Commit? { NestedOutboxRollsBack(Row(a, plan), a.q, ((a.p.id, a.rid), (a.q, plan.out)), a.taken); }
  }

  /** Each request has its handler. */
  lemma EachItsHandler(cfg: Config, db: Db, host: Host, now: Counter, p: Principal, q: Request)
    ensures var plan := Handle(cfg, db, host, now, p, q);
            match q
            case DrainHost => plan == Drain(db, host, now)
            case ActivatePolicy(sp, e) => plan == Activate(cfg, db, host.state, now, sp, e)
            case OpenRun(_, _, _, _, _, _, _, _) => plan == Start(cfg, db, host.state, now, p, q)
            case ControlRun(id, e, action, why) => plan == Control(db, host.state, now, p, id, e, action, why)
            case Append(so) => plan == Observe(cfg, db, host.state, now, p, so)
            case CreateCheck(_, _, _, _, _) => plan == Create(db, host.state, now, p, q)
            case CancelCheck(id, e) => plan == Cancel(db, host.state, now, p, id, e)
            case ClaimReview(named, e) => plan == Claim(db, host.state, now, p, named, e)
            case ResolveReview(_, _, _, _, _) => plan == Resolve(db, host.state, now, p, q)
  {
    hide Drain, Activate, Start, Control, Observe, Create, Cancel, Claim, Resolve;
  }

  // ---- a run that must halt ----

  /** The run stands halted for what its source said: none of its checks is EVALUATING, and, if it is QUARANTINED, none
      of its reviews active. Only its rows have changed, and the request's reply is on record. */
  ghost predicate Halts(db: Db, next: Db, id: Id, state: RunState, why: string) {
    && id in next.runs && next.runs[id].state == state
    && (forall c | c in next.checks && next.checks[c].run == id :: next.checks[c].state != Evaluating)
    && (state == Quarantined ==> forall v | v in next.reviews && next.reviews[v].run == id :: !Waits(next.reviews[v]))
    && HaltsOne(db.(idempotency := next.idempotency), next, id, state, why, Stale, "STALE")
    && (if state == Quarantined then ReviewsExpire(db.reviews, next.reviews, Some({id}))
        else next.reviews == db.reviews)
  }

  lemma IsolatedHalts(db: Db, plan: Plan, host: HostState, id: Id, code: Code, why: string, a: Action)
    requires a.Ask? && id in db.runs && Isolates(db, plan, host, id, code, why)
    ensures Halts(db, Row(a, plan), id, Quarantined, why)
  {}

  lemma PausedHalts(db: Db, plan: Plan, host: HostState, id: Id, code: Code, why: string, a: Action)
    requires a.Ask? && id in db.runs && PausesFor(db, plan, host, id, code, why)
    ensures Halts(db, Row(a, plan), id, Paused, why)
  {}

  lemma JoinedRow(db: Db, plan: Plan, now: Counter, o: Observation, a: Action)
    requires a.Ask? && plan.Commit? && Joins(db, plan.db, now, o)
    ensures Joins(db.(idempotency := Row(a, plan).idempotency), Row(a, plan), now, o)
  {
    RowFrame(db, a, plan);
    hide Row, StreamIn;
  }

  lemma RowFrame(db: Db, a: Action, plan: Plan)
    requires a.Ask? && plan.Commit?
    ensures var d := Row(a, plan);
            && d == plan.db.(idempotency := d.idempotency)
            && d.runs == plan.db.runs && d.checks == plan.db.checks && d.reviews == plan.db.reviews
            && d.observations == plan.db.observations && d.windows == plan.db.windows
  {}

  /** How an observation from the run's own source must end, given the stream accepted so far. */
  ghost predicate AppendEnds(db: Db, next: Db, reply: Reply, now: Counter, o: Observation)
    requires o.run in db.runs
  {
    var r, os, w := db.runs[o.run], ObservationsOf(db, o.run), o.snapshot.window;
    if o.pos <= |os| && o in os then next == db && reply == Appended(false, r.cursor, r.revision)
    else if o.pos <= |os| || (o.pos == |os| + 1 && o.prev != LastDigest(os))
    then Halts(db, next, o.run, Quarantined, "SOURCE_FORK") && reply == Refused(SourceFork)
    else if o.pos > |os| + 1 then Halts(db, next, o.run, Paused, "SOURCE_GAP") && reply == Refused(SourceGap)
    else if o.cutMs > now then next == db && reply == Refused(ClockFault)
    else if os != [] && (o.cutMs < os[|os| - 1].cutMs || o.snapshot.committed < os[|os| - 1].snapshot.committed)
    then Halts(db, next, o.run, Quarantined, "COUNTER_ROLLBACK") && reply == Refused(CounterRollback)
    else if !WindowFits(w, o.cutMs) then next == db && reply == Refused(SchemaInvalid)
    else if OtherCounts(db, o.run, w)
    then Halts(db, next, o.run, Quarantined, "SOURCE_FORK") && reply == Refused(SourceFork)
    else
      && reply == Appended(true, Head(o.pos, OfObservation(o)), r.revision + 1)
      && Joins(db.(idempotency := next.idempotency), next, now, o)
  }

  lemma AppendMustEnd(cfg: Config, db: Db, host: HostState, now: Counter, a: Action)
    requires Inv(db) && a.Ask? && a.q.Append? && Addressed(cfg, db, a.p, a.q.observation)
    ensures var plan, o := Observe(cfg, db, host, now, a.p, a.q.observation), a.q.observation.body;
            match plan
            case Refuse(c) => AppendEnds(db, db, Refused(c), now, o)
            case Answer(r) => AppendEnds(db, db, r, now, o)
            case Commit(out, _, _) => AppendEnds(db, Row(a, plan), out, now, o)
  {
    hide Inv, Observe, Isolates, PausesFor, Halts, Joins, Row, WindowFits, OtherCounts;
    var o := a.q.observation.body;
    AppendedHalts(cfg, db, host, now, a);
    if o.pos == |ObservationsOf(db, o.run)| + 1 {
      InTurn(cfg, db, host, now, a.p, a.q.observation);
    } else {
      OutOfTurn(cfg, db, host, now, a.p, a.q.observation);
    }
  }

  /** Over any run: a signed observation from the run's own source that repeats an accepted one is acknowledged; one at
      or behind the cursor that was never accepted, or at the next position but linked to another past, with less cut
      time or spend than before, or with other counts of a window already told, quarantines the run; one past the next
      position pauses it; and only one that is none of these joins the stream. */
  lemma MustHalt(cfg: Config, acts: seq<Action>, a: Action)
    requires a.Ask? && a.q.Append? && a.fate == Commits && Passes(Reached(cfg, COLD, acts), a)
    requires Addressed(cfg, Reached(cfg, COLD, acts).db, a.p, a.q.observation)
    ensures var s := Reached(cfg, COLD, acts);
            && AnswerTo(cfg, s, a).Replied?
            && AppendEnds(s.db, Step(cfg, s, a).db, AnswerTo(cfg, s, a).reply, s.now, a.q.observation.body)
  {
    hide Reached, Passes, Step, Observe, AppendEnds, Inv, Row, AnswerTo;
    var s := Reached(cfg, COLD, acts);
    Always(cfg, acts, |acts|);
    Served(cfg, s, a);
    EachItsHandler(cfg, s.db, s.host, s.now, a.p, a.q);
    AppendMustEnd(cfg, s.db, s.host.state, s.now, a);
  }

  lemma AppendedHalts(cfg: Config, db: Db, host: HostState, now: Counter, a: Action)
    requires a.Ask? && a.q.Append? && a.q.observation.body.run in db.runs
    ensures var o, plan := a.q.observation.body, Observe(cfg, db, host, now, a.p, a.q.observation);
            && (Isolates(db, plan, host, o.run, SourceFork, "SOURCE_FORK") ==>
                  plan.Commit? && plan.out == Refused(SourceFork)
                  && Halts(db, Row(a, plan), o.run, Quarantined, "SOURCE_FORK"))
            && (Isolates(db, plan, host, o.run, CounterRollback, "COUNTER_ROLLBACK") ==>
                  plan.Commit? && plan.out == Refused(CounterRollback)
                  && Halts(db, Row(a, plan), o.run, Quarantined, "COUNTER_ROLLBACK"))
            && (PausesFor(db, plan, host, o.run, SourceGap, "SOURCE_GAP") ==>
                  plan.Commit? && plan.out == Refused(SourceGap)
                  && Halts(db, Row(a, plan), o.run, Paused, "SOURCE_GAP"))
            && (plan.Commit? && Joins(db, plan.db, now, o) ==>
                  Joins(db.(idempotency := Row(a, plan).idempotency), Row(a, plan), now, o))
  {
    hide Observe, Halts, HaltsOne, ReviewsExpire, Joins, Row;
    var o, plan := a.q.observation.body, Observe(cfg, db, host, now, a.p, a.q.observation);
    if Isolates(db, plan, host, o.run, SourceFork, "SOURCE_FORK") {
      IsolatedHalts(db, plan, host, o.run, SourceFork, "SOURCE_FORK", a);
    }
    if Isolates(db, plan, host, o.run, CounterRollback, "COUNTER_ROLLBACK") {
      IsolatedHalts(db, plan, host, o.run, CounterRollback, "COUNTER_ROLLBACK", a);
    }
    if PausesFor(db, plan, host, o.run, SourceGap, "SOURCE_GAP") {
      PausedHalts(db, plan, host, o.run, SourceGap, "SOURCE_GAP", a);
    }
    if plan.Commit? && Joins(db, plan.db, now, o) { JoinedRow(db, plan, now, o, a); }
  }

  // ---- a start ----

  /** What a start that commits its recovery must leave: no run OPEN, no review active, no check EVALUATING. */
  ghost predicate Recovering(db: Db, next: Db) {
    && (forall id | id in next.runs :: next.runs[id].state != Open)
    && (forall id | id in next.reviews :: !Waits(next.reviews[id]))
    && (forall id | id in next.checks :: next.checks[id].state != Evaluating)
    && Recovers(db.(hostEpoch := next.hostEpoch), next)
  }

  lemma RecoversIs(db: Db, next: Db)
    requires Recovers(db.(hostEpoch := next.hostEpoch), next)
    ensures Recovering(db, next)
  {}

  /** The first transaction of a start advances the epoch, in the log and in its counter. */
  lemma BegunDoes(db: Db, now: nat)
    ensures var d := Begun(db, now);
            && d.hostEpoch == db.hostEpoch + 1 && KeepsRest(db.(hostEpoch := d.hostEpoch), d)
            && d.runs == db.runs && d.checks == db.checks && d.reviews == db.reviews
            && |d.audit| == |db.audit| + 1 && d.audit[|db.audit|].value == AHost(Host(Starting, db.hostEpoch + 1))
  {
    hide Put, RowOf;
    PutFrame(db.(hostEpoch := db.hostEpoch + 1), now, HostStarted, AHost(Host(Starting, db.hostEpoch + 1)));
  }

  lemma StartRecovers(db: Db, d1: Db, d2: Db, now: nat)
    requires d1.runs == db.runs && d1.checks == db.checks && d1.reviews == db.reviews
    requires KeepsRest(db.(hostEpoch := d1.hostEpoch), d1) && Recovers(d1, d2)
    ensures Recovering(db, d2) && d2.hostEpoch == d1.hostEpoch
    ensures Recovering(db, Readied(d2, now)) && Readied(d2, now).hostEpoch == d1.hostEpoch
  {
    hide Put, RunsHalt, ReviewsExpire, ChecksEnd, Recovering;
    PutFrame(d2, now, HostReady, AHost(Host(Ready, d2.hostEpoch)));
    RecoversIs(db, d2);
    RecoversIs(db, Readied(d2, now));
  }

  /** Over any run, a start that is not behind its minimum head and lives to commit its recovery pauses the OPEN runs
      for RESTART, expires the EVALUATING checks for RESTART and the active reviews, and moves nothing else but the
      epoch, which it advances by one; the host is READY exactly if the start is carried through. A start behind its
      minimum head recovers nothing and does not serve. */
  lemma RecoveredAtStart(cfg: Config, acts: seq<Action>, parts: nat, least: nat)
    ensures var s := Reached(cfg, COLD, acts);
            var next := Step(cfg, s, Boot(parts, least));
            && (|s.db.audit| + 1 >= least && parts >= 2 ==>
                  Recovering(s.db, next.db) && next.db.hostEpoch == s.db.hostEpoch + 1)
            && (|s.db.audit| + 1 < least || parts < 2 ==>
                  next.db.runs == s.db.runs && next.db.checks == s.db.checks && next.db.reviews == s.db.reviews)
            && (next.up <==> |s.db.audit| + 1 >= least && parts >= 3)
            && (next.up ==> next.host == Host(Ready, next.db.hostEpoch) && next.rate == map[] && next.now == s.now)
  {
    hide Reached, Restart, Recovering, Inv;
    var s := Reached(cfg, COLD, acts);
    Always(cfg, acts, |acts|);
    RestartDoes(s, parts, least);
  }

  lemma RestartDoes(s: Sys, parts: nat, least: nat)
    requires Inv(s.db)
    ensures var next := Restart(s, parts, least);
            && (|s.db.audit| + 1 >= least && parts >= 2 ==>
                  Recovering(s.db, next.db) && next.db.hostEpoch == s.db.hostEpoch + 1)
            && (|s.db.audit| + 1 < least || parts < 2 ==>
                  next.db.runs == s.db.runs && next.db.checks == s.db.checks && next.db.reviews == s.db.reviews)
            && (next.up <==> |s.db.audit| + 1 >= least && parts >= 3)
            && (next.up ==> next.host == Host(Ready, next.db.hostEpoch) && next.rate == map[] && next.now == s.now)
  {
    hide Begun, Recovered, Readied, Put, Recovers, Recovering, Inv;
    var d1 := Begun(s.db, s.now);
    BegunDoes(s.db, s.now);
    BegunKeyed(s.db, d1);
    RecoveredDoes(d1, s.now);
    StartRecovers(s.db, d1, Recovered(d1, s.now), s.now);
    PutFrame(d1, s.now, HostFaulted, AHost(Host(Faulted, d1.hostEpoch)));
  }

  lemma BegunKeyed(db: Db, d: Db)
    requires Inv(db) && d.runs == db.runs && d.checks == db.checks && d.reviews == db.reviews
    ensures KeyedRows(d)
  {
    hide Inv;
    InvIsKeyed(db);
  }

  // ---- the timers ----

  /** Over any run, as long as the daemon is up and not faulted: the run timer pauses what has fallen silent, the due,
      lease and wake timers change exactly the reviews whose time has come, and no other row moves. */
  lemma TimersAct(cfg: Config, acts: seq<Action>)
    requires Reached(cfg, COLD, acts).up && Reached(cfg, COLD, acts).host.state != Faulted
    ensures var s := Reached(cfg, COLD, acts);
            && FallSilent(s.db, Step(cfg, s, Silence).db, FallenSilent(s.db, s.now))
            && ReviewsMap(s.db, Step(cfg, s, Due).db, AfterDue(s.db.reviews, s.now))
            && ReviewsMap(s.db, Step(cfg, s, Lease).db, AfterLease(s.db.reviews, s.now))
            && ReviewsMap(s.db, Step(cfg, s, Wake).db, AfterWake(s.db.reviews, s.now))
  {
    hide Reached, Inv, TickSilence, TickDue, TickLease, TickWake, ReviewsMap, FallSilent, FallenSilent, AfterDue,
         AfterLease, AfterWake;
    var s := Reached(cfg, COLD, acts);
    Always(cfg, acts, |acts|);
    InvIsKeyed(s.db);
    SilenceDoes(s.db, s.now);
    DueDoes(s.db, s.now);
    LeaseDoes(s.db, s.now);
    WakeDoes(s.db, s.now);
  }

  /** A principal that has not called since the last start is not turned away for its rate. */
  lemma FirstCallIsAdmitted(s: Sys, p: Id)
    requires p !in s.rate
    ensures TB.Admits(RateAt(s, p), s.now)
  {}
}
