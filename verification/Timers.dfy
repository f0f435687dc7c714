/** The steps the daemon takes on its own: timers, check finalization, monitor replies, restart recovery
    (crates/watch/src/daemon.rs). */
module Timers {
  import opened Basics
  import opened Ids
  import opened Records
  import opened Store
  import opened Detect
  import opened Protocol
  import D = DriftReducer

  // ---- run silence ----

  function Freshness(db: Db, r: Run): nat {
    if PolicyOf(db, r.policy).Some? then PolicyOf(db, r.policy).value.freshnessMs else 2_000
  }

  predicate Silent(db: Db, now: nat, r: Run) {
    r.state == Open && r.lastReceivedMs.Some? && SatSub(now, r.lastReceivedMs.value) >= Freshness(db, r)
  }

  function SilentRuns(db: Db, now: nat): (r: seq<Id>)
    ensures HasRuns(db, r)
    ensures forall id :: id in r <==> id in db.runs && Silent(db, now, db.runs[id])
    ensures forall i, j | 0 <= i < j < |r| :: r[i] != r[j]
  {
    var r := Ascending(set id | id in db.runs && Silent(db, now, db.runs[id]));
    assert forall i | 0 <= i < |r| :: r[i] in r;
    r
  }

  function PauseSilent(db: Db, now: nat, ids: seq<Id>): (r: Db)
    requires HasRuns(db, ids)
    ensures KeepsRest(db, r) && r.reviews == db.reviews
    decreases |ids|
  {
    if ids == [] then db
    else if db.runs[ids[0]].state != Open then PauseSilent(db, now, ids[1..])
    else
      var d := Put(db, now, RunPaused, ARun(Halt(db.runs[ids[0]], Paused, "SOURCE_SILENCE")));
      PauseSilent(StaleChecks(d, now, ids[0]), now, ids[1..])
  }

  function TickSilence(db: Db, now: nat): Db { PauseSilent(db, now, SilentRuns(db, now)) }

  // ---- review timers ----

  function EffectiveDue(v: Review): nat {
    if v.state == Accepted && v.acceptedUntilMs.Some? then Min(v.acceptedUntilMs.value, v.dueMs) else v.dueMs
  }

  function DueReviews(db: Db, now: nat): (r: seq<Id>)
    ensures HasReviews(db, r)
    ensures forall id :: id in r <==>
              id in db.reviews && Active(db.reviews[id].state) && EffectiveDue(db.reviews[id]) <= now
    ensures forall i, j | 0 <= i < j < |r| :: r[i] != r[j]
  {
    var r := Ascending(set id | id in db.reviews && Active(db.reviews[id].state)
                       && EffectiveDue(db.reviews[id]) <= now);
    assert forall i | 0 <= i < |r| :: r[i] in r;
    r
  }

  function TickDue(db: Db, now: nat): Db { ExpireAll(db, now, DueReviews(db, now)) }

  predicate LeaseOver(v: Review, now: nat) {
    v.state == Claimed && v.leaseUntilMs.Some? && v.leaseUntilMs.value <= now
  }

  predicate WakeOver(v: Review, now: nat) {
    v.state == Deferred && v.wakeMs.Some? && v.wakeMs.value <= now
  }

  function Woken(v: Review): Review { v.(state := ROpen, revision := v.revision + 1, wakeMs := None) }

  function LeaseIds(db: Db, now: nat): (r: seq<Id>)
    ensures HasReviews(db, r)
    ensures forall id :: id in r <==> id in db.reviews && LeaseOver(db.reviews[id], now)
    ensures forall i, j | 0 <= i < j < |r| :: r[i] != r[j]
  {
    var r := Ascending(set id | id in db.reviews && LeaseOver(db.reviews[id], now));
    assert forall i | 0 <= i < |r| :: r[i] in r;
    r
  }

  function WakeIds(db: Db, now: nat): (r: seq<Id>)
    ensures HasReviews(db, r)
    ensures forall id :: id in r <==> id in db.reviews && WakeOver(db.reviews[id], now)
    ensures forall i, j | 0 <= i < j < |r| :: r[i] != r[j]
  {
    var r := Ascending(set id | id in db.reviews && WakeOver(db.reviews[id], now));
    assert forall i | 0 <= i < |r| :: r[i] in r;
    r
  }

  /** Expired leases go back to the queue, unless the hard due instant is already here. */
  function ReleaseAll(db: Db, now: nat, ids: seq<Id>): (r: Db)
    requires HasReviews(db, ids)
    ensures KeepsRest(db, r) && r.runs == db.runs && r.checks == db.checks
    decreases |ids|
  {
    if ids == [] then db
    else
      var v := db.reviews[ids[0]];
      if !LeaseOver(v, now) || now >= v.dueMs then ReleaseAll(db, now, ids[1..])
      else
        var d := Put(db, now, ReviewReleased, AReview(Reopen(v)));
        assert KeepsRest(db, d) && d.runs == db.runs && d.checks == db.checks && HasReviews(d, ids[1..]);
        ReleaseAll(d, now, ids[1..])
  }

  function WakeAll(db: Db, now: nat, ids: seq<Id>): (r: Db)
    requires HasReviews(db, ids)
    ensures KeepsRest(db, r) && r.runs == db.runs && r.checks == db.checks
    decreases |ids|
  {
    if ids == [] then db
    else
      var v := db.reviews[ids[0]];
      if !WakeOver(v, now) || now >= v.dueMs then WakeAll(db, now, ids[1..])
      else
        var d := Put(db, now, ReviewWoken, AReview(Woken(v)));
        assert KeepsRest(db, d) && d.runs == db.runs && d.checks == db.checks && HasReviews(d, ids[1..]);
        WakeAll(d, now, ids[1..])
  }

  function TickLease(db: Db, now: nat): Db { ReleaseAll(db, now, LeaseIds(db, now)) }
  function TickWake(db: Db, now: nat): Db { WakeAll(db, now, WakeIds(db, now)) }

  // ---- finalization ----

  function SlotsIn(slots: Slots, check: Id): map<Id, MonitorSlot> { if check in slots then slots[check] else map[] }
  function SlotsOf(db: Db, check: Id): map<Id, MonitorSlot> { SlotsIn(db.slots, check) }

  predicate Settled(s: MonitorSlot, now: nat) { s.state == Done || s.state == Timeout || now >= s.deadlineMs }

  /** A done slot counts only before that slot's own deadline. */
  function Counted(s: MonitorSlot, now: nat): Option<Result> {
    if s.state == Done && now < s.deadlineMs then s.result else None
  }

  /** The result vector in monitor-id order. */
  function Vector(slots: map<Id, MonitorSlot>, ids: seq<Id>, now: nat): (v: seq<Option<Result>>)
    requires forall i | 0 <= i < |ids| :: ids[i] in slots
    ensures |v| == |ids|
    ensures forall i | 0 <= i < |v| :: v[i] == Counted(slots[ids[i]], now)
  {
    if ids == [] then [] else
      var pre := Vector(slots, ids[..|ids| - 1], now);
      pre + [Counted(slots[ids[|ids| - 1]], now)]
  }

  function SlotVector(slots: map<Id, MonitorSlot>, now: nat): seq<Option<Result>> {
    var ids := Ascending(slots.Keys);
    assert forall i | 0 <= i < |ids| :: ids[i] in ids;
    Vector(slots, ids, now)
  }

  function SettledResults(v: seq<Option<Result>>): (r: seq<Result>)
    ensures forall x :: x in r <==> Some(x) in v
  {
    if v == [] then [] else
      var r := SettledResults(v[1..]);
      assert v == [v[0]] + v[1..];
      if v[0].Some? then [v[0].value] + r else r
  }

  /** The fields a newer observation must leave alone for an older one to stay usable. */
  predicate SameFooting(a: Observation, b: Observation) {
    && a.snapshot.(window := None) == b.snapshot.(window := None)
    && a.source == b.source && a.epoch == b.epoch && a.boot == b.boot
  }

  function CandidateBasis(c: Check, r: Run, o: Observation, settled: seq<Result>): Basis {
    Basis(r.id, OfIntent(c.intent), c.policy, r.guardEpoch, c.intent.targetRevision,
          SpendTotal(o.snapshot, c.intent.cost), OfFindings(Findings(settled)))
  }

  function ActiveWithBasis(db: Db, run: Id, b: Basis): set<Id> {
    set id | id in db.reviews && Active(db.reviews[id].state)
             && db.reviews[id].run == run && db.reviews[id].basis == Some(b)
  }

  /** The review a check may consume: the supplied one, if it covers this exact basis. */
  function Consumable(db: Db, now: nat, c: Check, r: Run, b: Basis): Option<Review> {
    if c.review.Some? && c.review.value in db.reviews
       && Covers(db.reviews[c.review.value], now, r.id, c.intent, c.policy, r.guardEpoch, b.maxTotal)
       && db.reviews[c.review.value].basis.value.findings == b.findings
    then Some(db.reviews[c.review.value]) else None
  }

  function ReviewIdFor(check: Id): Id { "wth_" + check }

  function NewReview(db: Db, now: nat, c: Check, r: Run, p: Policy, b: Basis, reason: string): Review {
    Review(ReviewIdFor(c.id), 1, r.id, Some(c.id), Some(b), Blocking, ROpen, Warning, |db.audit| + 1,
           SatAdd(now, p.reviewTtlMs), None, None, None, None, reason, None, None)
  }

  function NewClearance(now: nat, c: Check, r: Run, p: Policy, o: Observation, basis: Digest): Clearance {
    Clearance(r.id, r.runtime, r.guardEpoch, r.boot, c.id, OfIntent(c.intent), c.policy, c.observation, basis,
              now, Min(SatAdd(now, p.clearanceMs), SatAdd(o.cutMs, p.freshnessMs)), r.mode)
  }

  /** The clearing transaction: consume the supplied review first, then finalize with a signed clearance. */
  function Cleared(db: Db, now: nat, c: Check, r: Run, p: Policy, o: Observation, consumed: Option<Review>,
                   b: Basis): Db
  {
    var basis := OfBasis(if consumed.Some? && consumed.value.basis.Some? then consumed.value.basis.value else b);
    var c2 := Finish(c, CClear, "CLEAR").(clearance := Some(NewClearance(now, c, r, p, o, basis)));
    var d := if consumed.Some?
             then Put(db, now, ReviewConsumed,
                      AReview(consumed.value.(state := Consumed, revision := consumed.value.revision + 1)))
             else db;
    Put(d, now, CheckFinalized, ACheck(c2))
  }

  function ApplyOutcome(db: Db, now: nat, c: Check, r: Run, p: Policy, o: Observation, outcome: Outcome,
                        existing: Option<Id>, consumed: Option<Review>, b: Basis): Db
  {
    match outcome
    case ODeny(why) => Put(db, now, CheckFinalized, ACheck(Finish(c, Deny, why)))
    case OExpired(why) => Put(db, now, CheckFinalized, ACheck(Finish(c, CExpired, why)))
    case OHeld(why, true) =>
      var v := NewReview(db, now, c, r, p, b, why);
      Put(Put(db, now, CheckFinalized, ACheck(Finish(c, Held, why).(review := Some(v.id)))), now, ReviewOpened,
          AReview(v))
    case OHeld(why, false) =>
      Put(db, now, CheckFinalized,
          ACheck(Finish(c, Held, why).(review := if existing.Some? then existing else c.review)))
    case OClear => Cleared(db, now, c, r, p, o, consumed, b)
  }

  /** Why the final transaction calls a check stale: its run moved on, or its observation did. */
  predicate OutOfDate(db: Db, now: nat, c: Check, r: Run, p: Policy) {
    var o := ByRef(db, c.observation);
    || r.state != Open || r.policy != c.policy
    || o.None?
    || SatSub(now, o.value.cutMs) >= p.freshnessMs
    || (r.cursor.pos > c.observation.pos && Latest(db, r.id).Some? && !SameFooting(o.value, Latest(db, r.id).value))
  }

  /** The aggregated outcome, with an accepted covering review turning a hold into a clearance. */
  function Decide(db: Db, now: nat, c: Check, r: Run, p: Policy, b: Basis, vec: seq<Option<Result>>): Outcome {
    var q := QueueCtx(|ActiveReviewIds(db, None)|, |ActiveReviewIds(db, Some(r.id))|, p.queueCapacity,
                      p.perRunOpenReviews, ActiveWithBasis(db, r.id, b) != {});
    var outcome := Aggregate(vec, q);
    if Consumable(db, now, c, r, b).Some? && outcome.OHeld? then OClear else outcome
  }

  /** The finalization transaction: rechecks, the deadline rule, then aggregation. */
  function Finalize(db: Db, now: nat, c: Check, vec: seq<Option<Result>>): Db {
    if c.run !in db.runs || PolicyOf(db, c.policy).None? then db
    else
      var r, p := db.runs[c.run], PolicyOf(db, c.policy).value;
      if OutOfDate(db, now, c, r, p) then Put(db, now, CheckFinalized, ACheck(Finish(c, Stale, "STALE")))
      else if now >= c.deadlineMs && None in vec
      then Put(db, now, CheckFinalized, ACheck(Finish(c, CExpired, "MONITOR_TIMEOUT")))
      else
        var o, settled := ByRef(db, c.observation).value, SettledResults(vec);
        var b := CandidateBasis(c, r, o, settled);
        var held := ActiveWithBasis(db, r.id, b);
        ApplyOutcome(db, now, c.(results := settled), r, p, o, Decide(db, now, c, r, p, b, vec),
                     if held == {} then None else Some(Least(held)), Consumable(db, now, c, r, b), b)
  }

  predicate ReadyToFinalize(slots: map<Id, MonitorSlot>, now: nat, c: Check) {
    now >= c.deadlineMs || forall m | m in slots :: Settled(slots[m], now)
  }

  function MaybeFinalize(db: Db, now: nat, check: Id): Db {
    if check !in db.checks || db.checks[check].state != Evaluating then db
    else if !ReadyToFinalize(SlotsOf(db, check), now, db.checks[check]) then db
    else Finalize(db, now, db.checks[check], SlotVector(SlotsOf(db, check), now))
  }

  // ---- monitor replies ----

  function FindMonitor(ms: seq<Monitor>, id: Id): (r: Option<Monitor>)
    ensures r.Some? ==> r.value in ms && r.value.id == id
    ensures r.None? ==> forall i | 0 <= i < |ms| :: ms[i].id != id
  {
    if ms == [] then None else if ms[0].id == id then Some(ms[0]) else
      assert forall i | 0 < i < |ms| :: ms[i] == ms[1..][i - 1];
      FindMonitor(ms[1..], id)
  }

  function Recompute(db: Db, c: Check, monitor: Id): Option<Result> {
    var p, o := PolicyOf(db, c.policy), ByRef(db, c.observation);
    if p.None? || o.None? then None
    else
      var m := FindMonitor(p.value.monitors, monitor);
      if m.None? then None else Some(Expected(m.value, p.value, o.value, c.observation, c.intent))
  }

  function SetSlot(db: Db, check: Id, monitor: Id, s: MonitorSlot): Db {
    db.(slots := db.slots[check := SlotsOf(db, check)[monitor := s]])
  }

  /** A worker's reply. `slotMonitor` names the slot the job string resolved to, `monitor` the one the worker
      answered for; the string "job_<check>_<monitor>" does not always tell them apart. */
  datatype Completion = Completion(check: Id, slotMonitor: Id, monitor: Id, result: Option<Result>)

  /** The first transaction of a reply: its slot is stored, or the host faults, or nothing happens. The flag says
      whether the check is looked at again in a second transaction. */
  function StoreReply(db: Db, host: HostState, epoch: nat, now: nat, k: Completion): (Db, HostState, bool) {
    if k.slotMonitor !in SlotsOf(db, k.check) || k.check !in db.checks then (db, host, false)
    else
      var c, s := db.checks[k.check], SlotsOf(db, k.check)[k.slotMonitor];
      if c.state != Evaluating || s.state == Done then (db, host, false)
      else if now >= s.deadlineMs then
        (SetSlot(db, k.check, k.monitor, MonitorSlot(s.deadlineMs, Timeout, None)), host, true)
      else if k.result.None? then (db, host, false)
      else
        var expected := Recompute(db, c, k.monitor);
        if expected.Some? && expected != k.result
        then (Put(db, now, HostFaulted, AHost(Host(Faulted, epoch))), Faulted, false)
        else (SetSlot(db, k.check, k.monitor, MonitorSlot(s.deadlineMs, Done, k.result)), host, true)
  }

  function ApplyReply(db: Db, host: HostState, epoch: nat, now: nat, k: Completion): (Db, HostState) {
    var (d, h, again) := StoreReply(db, host, epoch, now, k);
    (if again then MaybeFinalize(d, now, k.check) else d, h)
  }

  // ---- the window pass ----

  const WINDOW_DUE_MS: nat := 500
  const DUE_TOTAL: nat := 4096

  function LiveRunIds(db: Db): (r: seq<Id>)
    ensures HasRuns(db, r)
    ensures forall id :: id in r <==> id in db.runs && db.runs[id].state in {Open, Paused}
  {
    var r := Ascending(set id | id in db.runs && db.runs[id].state in {Open, Paused});
    assert forall i | 0 <= i < |r| :: r[i] in r;
    r
  }

  /** The time of the first event that opened the run. */
  function OpenedAt(audit: seq<Event>, run: Id): Option<nat> {
    if audit == [] then None else
      var before, e := OpenedAt(audit[..|audit| - 1], run), audit[|audit| - 1];
      if before.Some? then before
      else if e.kind == RunOpened && e.value.ARun? && e.value.run.id == run then Some(e.atMs) else None
  }

  /** The first window boundary at or after the run was opened. */
  function FirstStart(audit: seq<Event>, run: Id): nat {
    var since := OpenedAt(audit, run);
    ((if since.Some? then since.value else 0) + WINDOW_MS - 1) / WINDOW_MS * WINDOW_MS
  }

  /** The windows due from `start` on that nothing is recorded of, up to one more than DUE_TOTAL in one pass. */
  function DueWindows(windows: map<(Id, nat), Option<Bins>>, run: Id, now: nat, start: nat, found: nat): seq<nat>
    decreases now - start
  {
    if start + WINDOW_MS + WINDOW_DUE_MS > now then []
    else if (run, start) in windows then DueWindows(windows, run, now, start + WINDOW_MS, found)
    else if found + 1 > DUE_TOTAL then [start]
    else [start] + DueWindows(windows, run, now, start + WINDOW_MS, found + 1)
  }

  function TrailingIds(p: Policy): (r: seq<Id>)
    ensures forall i | 0 <= i < |r| :: FindMonitor(p.monitors, r[i]).Some?
  {
    var r := Ascending(set i | 0 <= i < |p.monitors| && p.monitors[i].mode == Trailing :: p.monitors[i].id);
    assert forall i | 0 <= i < |r| :: r[i] in r;
    r
  }

  /** What a trailing monitor says of a window whose counts never came; the evidence is the latest observation. */
  function WindowMissing(db: Db, run: Run, m: Monitor): Result {
    var latest := Latest(db, run.id);
    Result(m.id, m.detector, Unavailable, "WINDOW_MISSING", None,
           if run.cursor.pos > 0 && latest.Some? then [RefOf(latest.value)] else [])
  }

  function Missed(db: Db, run: Run, p: Policy): seq<Result> {
    var ids := TrailingIds(p);
    seq(|ids|, i requires 0 <= i < |ids| => WindowMissing(db, run, FindMonitor(p.monitors, ids[i]).value))
  }

  function Marked(db: Db, run: Id, start: nat): Db {
    if (run, start) in db.windows then db else db.(windows := db.windows[(run, start) := None])
  }

  /** One attempt at a window without counts: a row, an event with every trailing monitor's answer, a step of the drift
      reducer. `Windows` shows that a window with counts is never attempted. */
  function Attempted(db: Db, now: nat, id: Id, start: nat): Db {
    if id !in db.runs || db.runs[id].state !in {Open, Paused} || RunPolicy(db, id).None? then db
    else
      var r, p := db.runs[id], RunPolicy(db, id).value;
      var d := Put(Marked(db, id, start), now, TrailingEvaluated, AWindow(id, start, Missed(db, r, p)));
      var drift := D.Next(r.drift, D.Slot(start, D.NoWindow), p);
      if drift == r.drift then d else Put(d, now, DriftUpdated, ARun(r.(drift := drift, revision := r.revision + 1)))
  }

  function AttemptAll(db: Db, now: nat, id: Id, starts: seq<nat>): Db
    decreases |starts|
  {
    if starts == [] then db else AttemptAll(Attempted(db, now, id, starts[0]), now, id, starts[1..])
  }

  /** All that is due of one run's windows, in one transaction. */
  function PassWindows(db: Db, now: nat, id: Id): Db {
    AttemptAll(db, now, id, DueWindows(db.windows, id, now, FirstStart(db.audit, id), 0))
  }

  /** Jobs the worker pool takes leave the outbox. */
  function TickOutbox(db: Db, taken: set<(Id, Id)>): Db { db.(outbox := db.outbox - taken) }

  // ---- restart ----

  function PauseAll(db: Db, now: nat, ids: seq<Id>): (r: Db)
    requires HasRuns(db, ids)
    ensures KeepsRest(db, r) && r.checks == db.checks && r.reviews == db.reviews
    decreases |ids|
  {
    if ids == [] then db else
      PauseAll(Put(db, now, RunPaused, ARun(Halt(db.runs[ids[0]], Paused, "RESTART"))), now, ids[1..])
  }

  function Begun(db: Db, now: nat): Db {
    Put(db.(hostEpoch := db.hostEpoch + 1), now, HostStarted, AHost(Host(Starting, db.hostEpoch + 1)))
  }

  /** The recovery transaction: OPEN runs pause, active reviews expire, evaluating checks expire. */
  function Recovered(db: Db, now: nat): Db {
    var d1 := PauseAll(db, now, OpenRunIds(db));
    var d2 := ExpireAll(d1, now, ActiveReviewIds(d1, None));
    FinishAll(d2, now, EvaluatingIds(d2, None), CExpired, "RESTART")
  }

  /** A store behind the pinned minimum head is not served. */
  function Behind(db: Db, now: nat): Db { Put(db, now, HostFaulted, AHost(Host(Faulted, db.hostEpoch))) }

  function Readied(db: Db, now: nat): Db { Put(db, now, HostReady, AHost(Host(Ready, db.hostEpoch))) }
}
