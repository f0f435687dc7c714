/** The daemon as a whole: requests with their crash points, timers, replies, restarts and the passing of time,
    in any order, and what holds over every such run. */
module System {
  import opened Basics
  import opened Ids
  import opened Records
  import opened Store
  import opened Detect
  import opened Protocol
  import opened Timers
  import opened Safety
  import opened Invariants
  import opened Steps
  import opened Handlers
  import opened Intake
  import opened Clearing
  import opened TimersKeep
  import TB = TokenBucket

  /** `up` is false between a crash and the next start; only `db` survives one. */
  datatype Sys = Sys(db: Db, host: Host, now: Counter, rate: map<Id, TB.Bucket>, up: bool)
  const COLD := Sys(EMPTY, Host(Starting, 0), 0, map[], false)

  /** What befalls a mutation at its commit. */
  datatype Fate = Commits | AuditFails | CrashesBefore | CrashesAfter

  datatype Answered = Replied(reply: Reply) | NoReply

  // ---- one mutation: the closure's tables, the idempotency row, the commit ----

  /** The row is a plain INSERT: a second one under the same key fails and rolls the transaction back. */
  function WithRow(work: Db, idem: Option<((Id, Id), (Request, Reply))>): Option<Db> {
    if idem.None? then Some(work)
    else if idem.value.0 in work.idempotency then None
    else Some(work.(idempotency := work.idempotency[idem.value.0 := idem.value.1]))
  }

  function RateAt(s: Sys, p: Id): TB.Bucket {
    if p in s.rate then s.rate[p] else TB.Bucket(TB.FULL, s.now)
  }

  /** Dispatching queued jobs right after a check is created runs under the same idempotency key. */
  function AfterCreate(db: Db, q: Request, idem: ((Id, Id), (Request, Reply)), taken: set<(Id, Id)>): Db {
    if !q.CreateCheck? || db.outbox == {} then db
    else
      var d := WithRow(TickOutbox(db, taken), Some(idem));
      if d.Some? then d.value else db
  }

  function Apply(s: Sys, p: Principal, rid: Id, q: Request, plan: Plan, fate: Fate, taken: set<(Id, Id)>)
    : (Sys, Answered)
  {
    match plan
    case Refuse(c) => (s, Replied(Refused(c)))
    case Answer(r) => (s, Replied(r))
    case Commit(out, work, hs) => Committed(s, work, ((p.id, rid), (q, out)), hs, fate, taken)
  }

  /** The end of a transaction that turned the tables of `s` into `work`. */
  function Committed(s: Sys, work: Db, idem: ((Id, Id), (Request, Reply)), hs: HostState, fate: Fate,
                     taken: set<(Id, Id)>)
    : (Sys, Answered)
  {
    if fate == AuditFails then (s.(host := s.host.(state := Faulted), up := false), NoReply)
    else
      var (q, out) := idem.1;
      var d := WithRow(work, Some(idem));
      if d.None? then (s, Replied(Refused(AuditUnavailable)))
      else if fate == CrashesBefore then (s.(up := false), NoReply)
      else
        var s2 := s.(db := d.value, host := s.host.(state := hs));
        if fate == CrashesAfter then (s2.(up := false), NoReply)
        else (s2.(db := if out.Refused? then d.value else AfterCreate(d.value, q, idem, taken)), Replied(out))
  }

  /** Why a request goes no further than the door: role, idempotency, host readiness, in this order. */
  function TurnedAway(s: Sys, p: Principal, rid: Id, q: Request): Option<Answered> {
    if !RoleAllowed(p, q) then Some(Replied(Refused(Forbidden)))
    else if (p.id, rid) in s.db.idempotency then
      var (q0, r0) := s.db.idempotency[(p.id, rid)];
      Some(Replied(if q0 == q then r0 else Refused(IdempotencyConflict)))
    else if s.host.state == Draining && !DrainingAllowed(q) then Some(Replied(Refused(StateConflict)))
    else if s.host.state !in {Ready, Draining} then Some(Replied(Refused(AuditUnavailable)))
    else None
  }

  /** The door, the rate limit, the handler. */
  function Dispatch(cfg: Config, s: Sys, p: Principal, rid: Id, q: Request, fate: Fate, taken: set<(Id, Id)>)
    : (Sys, Answered)
  {
    var away := TurnedAway(s, p, rid, q);
    if away.Some? then (s, away.value)
    else
      var s1 := s.(rate := s.rate[p.id := TB.After(RateAt(s, p.id), s.now)]);
      if !TB.Admits(RateAt(s, p.id), s.now) then (s1, Replied(Refused(RateLimited)))
      else Apply(s1, p, rid, q, Handle(cfg, s.db, s.host, s.now, p, q), fate, taken)
  }

  // ---- every step ----

  datatype Action =
    | Ask(p: Principal, rid: Id, q: Request, fate: Fate, taken: set<(Id, Id)>)
    | Silence | Due | Lease | Wake | FinalizeOne(check: Id) | MonitorReply(k: Completion)
    /** A reply whose first transaction committed; the process died, or will, before the second. */
    | Stored(k: Completion)
    | Windows(run: Id) | Outbox(sent: set<(Id, Id)>)
    | AuditFault
    | Advance(ms: nat)
    | Boot(parts: nat, minimumHead: nat)

  /** A start is three transactions; the process may die after any of them. */
  function Restart(s: Sys, parts: nat, minimumHead: nat): Sys {
    var d1 := Begun(s.db, s.now);
    if parts == 0 then s.(up := false)
    else if parts == 1 then s.(db := d1, up := false)
    else if |d1.audit| < minimumHead then s.(db := Behind(d1, s.now), up := false)
    else if parts == 2 then s.(db := Recovered(d1, s.now), up := false)
    else
      Sys(Readied(Recovered(d1, s.now), s.now), Host(Ready, d1.hostEpoch), s.now, map[], true)
  }

  /** A timer, a worker's reply or a window pass. Only the replies already drained are still applied once one of them
      has faulted the host. */
  function Background(s: Sys, a: Action): Sys {
    match a
    case Silence => s.(db := TickSilence(s.db, s.now))
    case Due => s.(db := TickDue(s.db, s.now))
    case Lease => s.(db := TickLease(s.db, s.now))
    case Wake => s.(db := TickWake(s.db, s.now))
    case FinalizeOne(c) => s.(db := MaybeFinalize(s.db, s.now, c))
    case MonitorReply(k) =>
      var (d, hs) := ApplyReply(s.db, s.host.state, s.host.epoch, s.now, k);
      s.(db := d, host := s.host.(state := hs))
    case Stored(k) =>
      var (d, hs, again) := StoreReply(s.db, s.host.state, s.host.epoch, s.now, k);
      s.(db := d, host := s.host.(state := hs))
    case Windows(run) => s.(db := PassWindows(s.db, s.now, run))
    case Outbox(sent) => s.(db := TickOutbox(s.db, sent))
    case _ => s
  }

  function Step(cfg: Config, s: Sys, a: Action): Sys {
    match a
    case Boot(parts, least) => Restart(s, parts, least)
    case Advance(ms) => if s.now + ms <= U_MAX then s.(now := s.now + ms) else s
    case Ask(p, rid, q, fate, taken) => if s.up then Dispatch(cfg, s, p, rid, q, fate, taken).0 else s
    case Stored(_) => if s.up then Background(s, a) else s
    case MonitorReply(_) => if s.up then Background(s, a) else s
    case AuditFault => s.(host := s.host.(state := Faulted))
    case _ => if !s.up || s.host.state == Faulted then s else Background(s, a)
  }

  function Reached(cfg: Config, s: Sys, acts: seq<Action>): Sys {
    if acts == [] then s else Step(cfg, Reached(cfg, s, acts[..|acts| - 1]), acts[|acts| - 1])
  }

  lemma ReachedOne(cfg: Config, s: Sys, done: seq<Action>, a: Action)
    ensures Reached(cfg, s, done + [a]) == Step(cfg, Reached(cfg, s, done), a)
  {
    hide Step;
    assert (done + [a])[..|done|] == done;
  }

  lemma {:induction false} ReachedSplits(cfg: Config, s: Sys, first: seq<Action>, rest: seq<Action>)
    ensures Reached(cfg, s, first + rest) == Reached(cfg, Reached(cfg, s, first), rest)
  {
    hide Step;
    if rest == [] {
      assert first + rest == first;
    } else {
      ReachedSplits(cfg, s, first, rest[..|rest| - 1]);
      assert (first + rest)[..|first + rest| - 1] == first + rest[..|rest| - 1];
    }
  }

  /** What one tick does, in its fixed order. */
  function TickActions(db: Db, now: nat, sent: set<(Id, Id)>, replies: seq<Completion>): seq<Action> {
    [Silence, Due, Lease, Wake] + LaterActions(AfterTimers(db, now), sent, replies)
  }

  function LaterActions(db: Db, sent: set<(Id, Id)>, replies: seq<Completion>): seq<Action> {
    Finalizing(EvaluatingIds(db, None)) + Passing(LiveRunIds(db)) + [Outbox(sent)] + Replying(replies)
  }

  /** The tables after the run, due, lease and wake timers. */
  function AfterTimers(db: Db, now: nat): Db { TickWake(TickLease(TickDue(TickSilence(db, now), now), now), now) }

  lemma AfterReviews(cfg: Config, s: Sys)
    requires s.up && s.host.state != Faulted
    ensures Reached(cfg, s, [Silence, Due, Lease, Wake]) == s.(db := AfterTimers(s.db, s.now))
  {
    hide TickSilence, TickDue, TickLease, TickWake;
    ReachedOne(cfg, s, [], Silence);
    ReachedOne(cfg, s, [Silence], Due);
    ReachedOne(cfg, s, [Silence, Due], Lease);
    ReachedOne(cfg, s, [Silence, Due, Lease], Wake);
    assert [] + [Silence] == [Silence] && [Silence] + [Due] == [Silence, Due];
    assert [Silence, Due] + [Lease] == [Silence, Due, Lease];
    assert [Silence, Due, Lease] + [Wake] == [Silence, Due, Lease, Wake];
  }

  function Finalizing(ids: seq<Id>): (r: seq<Action>)
    ensures |r| == |ids| && forall i | 0 <= i < |r| :: r[i] == FinalizeOne(ids[i])
  {
    seq(|ids|, i requires 0 <= i < |ids| => FinalizeOne(ids[i]))
  }

  function Passing(ids: seq<Id>): (r: seq<Action>)
    ensures |r| == |ids| && forall i | 0 <= i < |r| :: r[i] == Windows(ids[i])
  {
    seq(|ids|, i requires 0 <= i < |ids| => Windows(ids[i]))
  }

  function Replying(ks: seq<Completion>): (r: seq<Action>)
    ensures |r| == |ks| && forall i | 0 <= i < |r| :: r[i] == MonitorReply(ks[i])
  {
    seq(|ks|, i requires 0 <= i < |ks| => MonitorReply(ks[i]))
  }

  /** Finalizations write checks and reviews only. */
  lemma MaybeFinalizeKeepsRuns(db: Db, now: nat, id: Id)
    ensures MaybeFinalize(db, now, id).runs == db.runs
  {
    hide Put, OutOfDate, Decide, Consumable, SettledResults, SlotVector, NewClearance, NewReview, PolicyIn, RefIn;
    forall d: Db, kind, c ensures Put(d, now, kind, ACheck(c)).runs == d.runs { PutFrame(d, now, kind, ACheck(c)); }
    forall d: Db, kind, v ensures Put(d, now, kind, AReview(v)).runs == d.runs { PutFrame(d, now, kind, AReview(v)); }
  }

  lemma {:induction false} FinalizingKeepsRuns(cfg: Config, s: Sys, ids: seq<Id>)
    requires s.up && s.host.state != Faulted
    ensures Reached(cfg, s, Finalizing(ids)) == s.(db := Reached(cfg, s, Finalizing(ids)).db)
    ensures Reached(cfg, s, Finalizing(ids)).db.runs == s.db.runs
    decreases |ids|
  {
    hide MaybeFinalize;
    if ids != [] {
      var front, id := ids[..|ids| - 1], ids[|ids| - 1];
      assert Finalizing(ids)[..|ids| - 1] == Finalizing(front);
      FinalizingKeepsRuns(cfg, s, front);
      var f := Reached(cfg, s, Finalizing(front));
      assert Step(cfg, f, FinalizeOne(id)) == f.(db := MaybeFinalize(f.db, f.now, id));
      MaybeFinalizeKeepsRuns(f.db, f.now, id);
    }
  }

  lemma WindowsStep(cfg: Config, s: Sys, id: Id)
    requires s.up && s.host.state != Faulted
    ensures Step(cfg, s, Windows(id)) == s.(db := PassWindows(s.db, s.now, id))
  {
    hide PassWindows, TickSilence, TickDue, TickLease, TickWake;
  }

  lemma SameLiveRuns(db: Db, next: Db)
    requires next.runs == db.runs
    ensures LiveRunIds(next) == LiveRunIds(db)
  {}

  // ---- the invariant over whole runs ----

  lemma HandleKeeps(cfg: Config, db: Db, host: Host, now: Counter, p: Principal, q: Request)
    requires Inv(db)
    ensures Handle(cfg, db, host, now, p, q).Commit? ==> Safe(db, Handle(cfg, db, host, now, p, q).db)
  {
    hide Inv, Extends, Quiet, Kept, PoliciesOk, RunsOk, StreamsOk, ChecksOk, ReviewsOk, ClearsOk, Drain, Activate,
         Start, Control, Observe, Create, Cancel, Claim, Resolve;
    match q
    case DrainHost => DrainKeeps(db, host, now); GoodIsSafe(db, Drain(db, host, now));
    case ActivatePolicy(sp, e) =>
      ActivateKeeps(cfg, db, host.state, now, sp, e); GoodIsSafe(db, Activate(cfg, db, host.state, now, sp, e));
    case OpenRun(_, _, _, _, _, _, _, _) =>
      StartKeeps(cfg, db, host.state, now, p, q); GoodIsSafe(db, Start(cfg, db, host.state, now, p, q));
    case ControlRun(id, e, a, why) =>
      ControlKeeps(db, host.state, now, p, id, e, a, why);
      GoodIsSafe(db, Control(db, host.state, now, p, id, e, a, why));
    case Append(so) =>
      ObserveKeeps(cfg, db, host.state, now, p, so); GoodIsSafe(db, Observe(cfg, db, host.state, now, p, so));
    case CreateCheck(_, _, _, _, _) =>
      CreateKeeps(db, host.state, now, p, q); GoodIsSafe(db, Create(db, host.state, now, p, q));
    case CancelCheck(id, e) =>
      CancelKeeps(db, host.state, now, p, id, e); GoodIsSafe(db, Cancel(db, host.state, now, p, id, e));
    case ClaimReview(named, e) =>
      ClaimKeeps(db, host.state, now, p, named, e); GoodIsSafe(db, Claim(db, host.state, now, p, named, e));
    case ResolveReview(_, _, _, _, _) =>
      ResolveKeeps(db, host.state, now, p, q); GoodIsSafe(db, Resolve(db, host.state, now, p, q));
  }

  lemma GoodIsSafe(db: Db, plan: Plan)
    requires plan.Commit? ==> Good(db, plan.db, NONE)
    ensures plan.Commit? ==> Safe(db, plan.db)
  {
    hide Extends, Quiet, Kept, PoliciesOk, RunsOk, StreamsOk, ChecksOk, ReviewsOk, ClearsOk;
  }

  lemma RowExtends(db: Db, key: (Id, Id), entry: (Request, Reply))
    requires key !in db.idempotency
    ensures Extends(db, db.(idempotency := db.idempotency[key := entry]))
  {}

  lemma RowKeeps(db: Db, key: (Id, Id), entry: (Request, Reply))
    requires Inv(db) && key !in db.idempotency
    ensures Safe(db, db.(idempotency := db.idempotency[key := entry]))
  {
    hide Extends, Quiet, Kept, PoliciesOk, RunsOk, StreamsOk, ChecksOk, ReviewsOk, ClearsOk;
    RowExtends(db, key, entry);
    SideTables(db, db.(idempotency := db.idempotency[key := entry]), NONE);
  }

  /** The dispatch of queued jobs inside checks.create always rolls back: its row is already there. */
  lemma NestedOutboxRollsBack(db: Db, q: Request, idem: ((Id, Id), (Request, Reply)), taken: set<(Id, Id)>)
    requires idem.0 in db.idempotency
    ensures AfterCreate(db, q, idem, taken) == db
  {}

  lemma DispatchKeeps(cfg: Config, s: Sys, p: Principal, rid: Id, q: Request, fate: Fate, taken: set<(Id, Id)>)
    requires Inv(s.db)
    ensures Safe(s.db, Dispatch(cfg, s, p, rid, q, fate, taken).0.db)
  {
    hide Inv, Extends, Handle, TurnedAway, TB.Admits, TB.After, Safe, Apply;
    assert Safe(s.db, s.db) by { SafeSelf(s.db); }
    var s1 := s.(rate := s.rate[p.id := TB.After(RateAt(s, p.id), s.now)]);
    HandleKeeps(cfg, s.db, s.host, s.now, p, q);
    ApplyKeeps(s1, p, rid, q, Handle(cfg, s.db, s.host, s.now, p, q), fate, taken);
  }

  lemma ApplyKeeps(s: Sys, p: Principal, rid: Id, q: Request, plan: Plan, fate: Fate, taken: set<(Id, Id)>)
    requires Inv(s.db) && (plan.Commit? ==> Safe(s.db, plan.db))
    ensures Safe(s.db, Apply(s, p, rid, q, plan, fate, taken).0.db)
  {
    hide Inv, Extends, AfterCreate;
    SafeSelf(s.db);
    if plan.Commit? && (p.id, rid) !in plan.db.idempotency {
      var d := plan.db.(idempotency := plan.db.idempotency[(p.id, rid) := (q, plan.out)]);
      RowKeeps(plan.db, (p.id, rid), (q, plan.out));
      SafeThen(s.db, plan.db, d);
      NestedOutboxRollsBack(d, q, ((p.id, rid), (q, plan.out)), taken);
    }
  }

  lemma RestartKeeps(s: Sys, parts: nat, minimumHead: nat)
    requires Inv(s.db)
    ensures Safe(s.db, Restart(s, parts, minimumHead).db)
  {
    hide Inv, Extends, Begun, Recovered, Readied, Behind;
    SafeSelf(s.db);
    var d1 := Begun(s.db, s.now);
    var d2 := Recovered(d1, s.now);
    BegunKeeps(s.db, s.now);
    BehindKeeps(d1, s.now);
    SafeThen(s.db, d1, Behind(d1, s.now));
    RecoveredKeeps(d1, s.now);
    SafeThen(s.db, d1, d2);
    ReadiedKeeps(d2, s.now);
    SafeThen(s.db, d2, Readied(d2, s.now));
  }

  lemma StepKeeps(cfg: Config, s: Sys, a: Action)
    requires Inv(s.db)
    ensures Safe(s.db, Step(cfg, s, a).db)
  {
    hide Inv, Extends, Dispatch, Restart, TickSilence, TickDue, TickLease, TickWake, MaybeFinalize, ApplyReply,
         StoreReply, PassWindows, TickOutbox;
    SafeSelf(s.db);
    match a
    case Boot(parts, least) => RestartKeeps(s, parts, least);
    case Ask(p, rid, q, fate, taken) => DispatchKeeps(cfg, s, p, rid, q, fate, taken);
    case FinalizeOne(c) => MaybeFinalizeKeeps(s.db, s.now, c);
    case Stored(k) => StoreKeeps(s.db, s.host.state, s.host.epoch, s.now, k);
    case MonitorReply(k) => ReplyKeeps(s.db, s.host.state, s.host.epoch, s.now, k);
    case Windows(run) => PassKeeps(s.db, s.now, run);
    case Outbox(sent) => TakingKeeps(s.db, sent);
    case Advance(_) =>
    case AuditFault =>
    case _ => ReviewTimersKeep(s.db, s.now);
  }

  lemma EmptyOk()
    ensures Inv(EMPTY)
  {}

  /** Over every run from an empty store, crashes and restarts included, the invariant holds and nothing committed
      is ever taken back. */
  lemma {:induction false} Always(cfg: Config, acts: seq<Action>, n: nat)
    requires n <= |acts|
    ensures Inv(Reached(cfg, COLD, acts).db)
    ensures Safe(Reached(cfg, COLD, acts[..n]).db, Reached(cfg, COLD, acts).db)
    decreases |acts|
  {
    hide Inv, Extends, Step;
    if acts == [] {
      EmptyOk();
      SafeSelf(EMPTY);
    } else {
      var pre := acts[..|acts| - 1];
      var m := if n < |acts| then n else |acts| - 1;
      Always(cfg, pre, m);
      Always(cfg, acts[..m], m);
      assert acts[..m][..m] == acts[..m];
      assert pre[..m] == acts[..m];
      StepKeeps(cfg, Reached(cfg, COLD, pre), acts[|acts| - 1]);
      if n < |acts| {
        SafeThen(Reached(cfg, COLD, acts[..n]).db, Reached(cfg, COLD, pre).db, Reached(cfg, COLD, acts).db);
      } else {
        assert acts[..n] == acts;
        SafeSelf(Reached(cfg, COLD, acts).db);
      }
    }
  }
}
