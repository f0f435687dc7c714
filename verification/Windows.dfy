/** What the trailing window pass can see (crates/watch/src/daemon.rs, `process_windows` and `process_one_window`):
    one row of the windows table says both that counts arrived and that the window was attempted, so a window is only
    ever attempted when its counts have not come. */
module Windows {
  import opened Basics
  import opened Ids
  import opened Records
  import opened Store
  import opened Detect
  import opened Protocol
  import opened Timers
  import opened Safety
  import opened Invariants
  import opened TimersKeep
  import opened System
  import opened Guarantees
  import opened Punctual
  import opened Honest
  import D = DriftReducer
  import TB = TokenBucket

  type Rows = map<(Id, nat), Option<Bins>>

  predicate Carries(o: Observation, start: nat) {
    o.snapshot.window.Some? && o.snapshot.window.value.startMs as nat == start
  }

  /** Every window an accepted observation carries has its row. */
  ghost predicate Rowed(streams: Streams, rows: Rows) {
    forall id, i | id in streams && 0 <= i < |streams[id]| && streams[id][i].snapshot.window.Some? ::
      (id, streams[id][i].snapshot.window.value.startMs as nat) in rows
  }

  ghost predicate Blind(db: Db) { Rowed(db.observations, db.windows) && AllWarm(db.runs) }

  // ---- every step ----

  lemma QuietStaysBlind(db: Db, next: Db)
    requires Blind(db) && SameIntake(db, next)
    ensures Blind(next)
  {}

  lemma AcceptStaysBlind(db: Db, now: Counter, r: Run, o: Observation)
    requires Blind(db) && r.id in db.runs && db.runs[r.id] == r
    ensures Blind(Accept(db, now, r, o))
  {
    hide Accept;
    AcceptTables(db, now, r, o);
    AcceptRow(db, now, r, o);
    var d := Accept(db, now, r, o);
    forall id, i | id in d.observations && 0 <= i < |d.observations[id]| && d.observations[id][i].snapshot.window.Some?
      ensures (id, d.observations[id][i].snapshot.window.value.startMs as nat) in d.windows
    {
      if id in db.observations && i < |db.observations[id]| { assert d.observations[id][i] == db.observations[id][i]; }
    }
  }

  lemma AcceptRow(db: Db, now: Counter, r: Run, o: Observation)
    ensures o.snapshot.window.Some? ==>
              (r.id, o.snapshot.window.value.startMs as nat) in Accept(db, now, r, o).windows
    ensures db.windows.Keys <= Accept(db, now, r, o).windows.Keys
  {
    hide RowOf, NextEvent;
  }

  lemma HaltStaysBlind(db: Db, host: HostState, now: nat, r: Run, c: Code)
    requires Blind(db) && r.id in db.runs && db.runs[r.id] == r
    ensures Blind(PauseSource(db, host, now, r, c).db) && Blind(Quarantine(db, host, now, r, c).db)
  {
    hide Put, FinishAll, ExpireAll;
    PutFrame(db, now, RunPaused, ARun(Halt(r, Paused, CodeName(c))));
    PutFrame(db, now, RunQuarantined, ARun(Halt(r, Quarantined, CodeName(c))));
  }

  lemma ObserveStaysBlind(cfg: Config, db: Db, host: HostState, now: Counter, p: Principal, so: Signed<Observation>)
    requires Blind(db) && forall id | id in db.runs :: db.runs[id].id == id
    ensures var plan := Observe(cfg, db, host, now, p, so); plan.Commit? ==> Blind(plan.db)
  {
    hide Blind, Accept, Admissible, PauseSource, Quarantine, RefIn;
    var o := so.body;
    if o.run in db.runs {
      var r := db.runs[o.run];
      HaltStaysBlind(db, host, now, r, SourceFork);
      HaltStaysBlind(db, host, now, r, SourceGap);
      if Admissible(db, now, r, o).Isolate? { HaltStaysBlind(db, host, now, r, Admissible(db, now, r, o).code); }
      AcceptStaysBlind(db, now, r, o);
    }
  }

  lemma AskStaysBlind(cfg: Config, s: Sys, a: Action)
    requires Inv(s.db) && Blind(s.db) && a.Ask?
    ensures Blind(Step(cfg, s, a).db)
  {
    hide Kept, PoliciesOk, RunsOk, StreamsOk, ChecksOk, ReviewsOk, ClearsOk, Handle, RoleAllowed, TB.Admits, TB.After,
         AfterCreate, Blind;
    var plan := Handle(cfg, s.db, s.host, s.now, a.p, a.q);
    if plan.Commit? {
      HandlersLeaveRows(cfg, s.db, s.host, s.now, a.p, a.q);
      if a.q.Append? {
        Keyed(s.db);
        HandleAppend(cfg, s.db, s.host, s.now, a.p, a.q);
        ObserveStaysBlind(cfg, s.db, s.host.state, s.now, a.p, a.q.observation);
      } else {
        QuietStaysBlind(s.db, plan.db);
      }
      var key := (a.p.id, a.rid);
      var d := plan.db.(idempotency := plan.db.idempotency[key := (a.q, plan.out)]);
      NestedOutboxRollsBack(d, a.q, (key, (a.q, plan.out)), a.taken);
      SameTablesStayBlind(plan.db, d);
    }
  }

  lemma SameTablesStayBlind(db: Db, next: Db)
    requires Blind(db)
    requires next.observations == db.observations && next.windows == db.windows && next.runs == db.runs
    ensures Blind(next)
  {}

  lemma BootStaysBlind(s: Sys, parts: nat, least: nat)
    requires Blind(s.db)
    ensures Blind(Restart(s, parts, least).db)
  {
    hide Restart, Blind;
    BootIsQuiet(s, parts, least);
    QuietStaysBlind(s.db, Restart(s, parts, least).db);
  }

  /** A missing window leaves the reducer in WARMUP. */
  lemma MissingStaysWarm(d: Drift, start: nat, p: Policy)
    requires Warm(d)
    ensures Warm(D.Next(d, D.Slot(start, D.NoWindow), p))
  {}

  ghost predicate OneRow(db: Db, d: Db, id: Id, start: nat) {
    && d.observations == db.observations
    && (forall k | k in db.windows :: k in d.windows)
    && (forall k | k in d.windows :: k in db.windows || k == (id, start))
  }

  lemma RowedGrows(streams: Streams, rows: Rows, later: Rows)
    requires Rowed(streams, rows) && rows.Keys <= later.Keys
    ensures Rowed(streams, later)
  {}

  lemma MarkedRow(db: Db, id: Id, start: nat)
    requires Blind(db)
    ensures var d := Marked(db, id, start); Blind(d) && OneRow(db, d, id, start) && d.runs == db.runs
  {
    hide Rowed, AllWarm;
    if (id, start) !in db.windows { RowedGrows(db.observations, db.windows, db.windows[(id, start) := None]); }
  }

  lemma MarkStaysBlind(db: Db, now: nat, id: Id, start: nat, s: Subject)
    requires Blind(db) && s.AWindow?
    ensures var d := Put(Marked(db, id, start), now, TrailingEvaluated, s);
            Blind(d) && OneRow(db, d, id, start) && d.runs == db.runs
  {
    hide Put, Marked, AllWarm, Rowed;
    MarkedRow(db, id, start);
    PutFrame(Marked(db, id, start), now, TrailingEvaluated, s);
  }

  lemma DriftStaysBlind(db: Db, now: nat, r: Run)
    requires Blind(db) && Warm(r.drift)
    ensures var d := Put(db, now, DriftUpdated, ARun(r));
            && Blind(d) && d.windows == db.windows && d.observations == db.observations
            && d.runs == db.runs[r.id := r]
  {
    hide Put;
    PutFrame(db, now, DriftUpdated, ARun(r));
  }

  lemma AttemptStaysBlind(db: Db, now: nat, id: Id, start: nat)
    requires Blind(db) && forall k | k in db.runs :: db.runs[k].id == k
    ensures var d := Attempted(db, now, id, start);
            Blind(d) && OneRow(db, d, id, start) && forall k | k in d.runs :: d.runs[k].id == k
  {
    hide Missed, D.Next, Put, PolicyIn, Warm, Marked, Rowed;
    if !(id !in db.runs || db.runs[id].state !in {Open, Paused} || RunPolicy(db, id).None?) {
      var r, p := db.runs[id], RunPolicy(db, id).value;
      var s := AWindow(id, start, Missed(db, r, p));
      var drift := D.Next(r.drift, D.Slot(start, D.NoWindow), p);
      MarkStaysBlind(db, now, id, start, s);
      MissingStaysWarm(r.drift, start, p);
      DriftStaysBlind(Put(Marked(db, id, start), now, TrailingEvaluated, s), now,
                      r.(drift := drift, revision := r.revision + 1));
    }
  }

  lemma {:induction false} AttemptAllStaysBlind(db: Db, now: nat, id: Id, starts: seq<nat>)
    requires Blind(db) && forall k | k in db.runs :: db.runs[k].id == k
    ensures var d := AttemptAll(db, now, id, starts);
            && Blind(d) && d.observations == db.observations
            && forall k | k in d.windows :: k in db.windows || (k.0 == id && k.1 in starts)
    decreases |starts|
  {
    hide Attempted, Blind;
    if starts != [] {
      AttemptStaysBlind(db, now, id, starts[0]);
      assert OneRow(db, Attempted(db, now, id, starts[0]), id, starts[0]);
      AttemptAllStaysBlind(Attempted(db, now, id, starts[0]), now, id, starts[1..]);
      assert starts == [starts[0]] + starts[1..];
    }
  }

  lemma StepStaysBlind(cfg: Config, s: Sys, a: Action)
    requires Inv(s.db) && Blind(s.db)
    ensures Blind(Step(cfg, s, a).db)
  {
    hide Inv, Blind, Moves, Restart, Dispatch, PauseSilent, ExpireAll, ReleaseAll, WakeAll, MaybeFinalize, ApplyReply,
         StoreReply, AttemptAll;
    if a.Ask? {
      AskStaysBlind(cfg, s, a);
    } else if a.Boot? {
      BootStaysBlind(s, a.parts, a.minimumHead);
    } else if a.Windows? {
      KeyedRuns(s.db);
      AttemptAllStaysBlind(s.db, s.now, a.run,
                           DueWindows(s.db.windows, a.run, s.now, FirstStart(s.db.audit, a.run), 0));
    } else if Rest(a) {
      StepMoves(cfg, s, a);
      OthersKeepRuns(cfg, s, a);
      MovesStaysBlind(s.db, Step(cfg, s, a).db, s.now);
    } else {
      SilenceIsolatesNone(s.db, s.now, SilentRuns(s.db, s.now));
      QuietStaysBlind(s.db, Step(cfg, s, a).db);
    }
  }

  lemma KeyedRuns(db: Db)
    requires Inv(db)
    ensures forall id | id in db.runs :: db.runs[id].id == id
  {
    hide PoliciesOk, RunsOk, StreamsOk, ChecksOk, ReviewsOk, ClearsOk;
    Keyed(db);
  }

  lemma MovesStaysBlind(db: Db, next: Db, now: nat)
    requires Blind(db) && Moves(db, next, now) && next.runs == db.runs
    ensures Blind(next)
  {}

  lemma OthersKeepRuns(cfg: Config, s: Sys, a: Action)
    requires Rest(a) && !a.Windows?
    ensures Step(cfg, s, a).db.runs == s.db.runs
  {
    hide MaybeFinalize, StoreReply, PassWindows;
    match a
    case FinalizeOne(id) => MaybeFinalizeKeepsRuns(s.db, s.now, id);
    case Stored(k) => StoreKeepsRuns(s.db, s.host.state, s.host.epoch, s.now, k);
    case MonitorReply(k) =>
      StoreKeepsRuns(s.db, s.host.state, s.host.epoch, s.now, k);
      MaybeFinalizeKeepsRuns(StoreReply(s.db, s.host.state, s.host.epoch, s.now, k).0, s.now, k.check);
    case Outbox(_) =>
  }

  lemma SlotKeepsRuns(db: Db, check: Id, monitor: Id, s: MonitorSlot)
    ensures SetSlot(db, check, monitor, s).runs == db.runs
  {}

  lemma StoreKeepsRuns(db: Db, host: HostState, epoch: nat, now: nat, k: Completion)
    ensures StoreReply(db, host, epoch, now, k).0.runs == db.runs
  {
    hide Put, Recompute, SetSlot;
    PutFrame(db, now, HostFaulted, AHost(Host(Faulted, epoch)));
    forall c, m, s ensures SetSlot(db, c, m, s).runs == db.runs { SlotKeepsRuns(db, c, m, s); }
  }

  // ---- over whole runs ----

  lemma {:induction false} AlwaysBlind(cfg: Config, acts: seq<Action>)
    ensures Inv(Reached(cfg, COLD, acts).db) && Blind(Reached(cfg, COLD, acts).db)
  {
    hide Inv, Blind, Step;
    if acts == [] {
      EmptyOk();
      assert Blind(EMPTY) by { EmptyIsBlind(); }
    } else {
      var n := |acts| - 1;
      AlwaysBlind(cfg, acts[..n]);
      StepKeeps(cfg, Reached(cfg, COLD, acts[..n]), acts[n]);
      StepStaysBlind(cfg, Reached(cfg, COLD, acts[..n]), acts[n]);
    }
  }

  lemma EmptyIsBlind()
    ensures Blind(EMPTY)
  {}

  /** Unrecorded windows from `start` on, each there once. */
  ghost predicate Unrecorded(due: seq<nat>, rows: Rows, id: Id, start: nat) {
    && (forall i | 0 <= i < |due| :: start <= due[i] && (id, due[i]) !in rows)
    && forall i, j | 0 <= i < j < |due| :: due[i] < due[j]
  }

  lemma OneMoreDue(rest: seq<nat>, rows: Rows, id: Id, start: nat)
    requires Unrecorded(rest, rows, id, start + 1) && (id, start) !in rows
    ensures Unrecorded([start] + rest, rows, id, start)
  {
    var due := [start] + rest;
    forall i | 0 <= i < |due| ensures start <= due[i] && (id, due[i]) !in rows {
      if i > 0 { assert due[i] == rest[i - 1]; }
    }
    forall i, j | 0 <= i < j < |due| ensures due[i] < due[j] {
      assert due[j] == rest[j - 1];
      if i > 0 { assert due[i] == rest[i - 1]; }
    }
  }

  lemma {:induction false} DueAreNew(rows: Rows, id: Id, now: nat, start: nat, found: nat)
    ensures Unrecorded(DueWindows(rows, id, now, start, found), rows, id, start)
    decreases now - start
  {
    if start + WINDOW_MS + WINDOW_DUE_MS <= now {
      if (id, start) in rows {
        DueAreNew(rows, id, now, start + WINDOW_MS, found);
      } else if found + 1 <= DUE_TOTAL {
        DueAreNew(rows, id, now, start + WINDOW_MS, found + 1);
        OneMoreDue(DueWindows(rows, id, now, start + WINDOW_MS, found + 1), rows, id, start);
      }
    }
  }

  lemma NoneCarries(db: Db, id: Id, start: nat)
    requires Blind(db) && (id, start) !in db.windows
    ensures forall o | o in ObservationsOf(db, id) :: !Carries(o, start)
  {
    forall o | o in ObservationsOf(db, id) ensures !Carries(o, start) {
      var i :| 0 <= i < |db.observations[id]| && db.observations[id][i] == o;
    }
  }

  /** Over any run: a window whose counts an accepted observation brought is never due. */
  lemma SuppliedIsNeverDue(cfg: Config, acts: seq<Action>, id: Id, o: Observation, start: nat)
    requires o in ObservationsOf(Reached(cfg, COLD, acts).db, id) && Carries(o, start)
    ensures var s := Reached(cfg, COLD, acts);
            start !in DueWindows(s.db.windows, id, s.now, FirstStart(s.db.audit, id), 0)
  {
    hide Inv, Blind, Reached, DueWindows, FirstStart;
    var s := Reached(cfg, COLD, acts);
    AlwaysBlind(cfg, acts);
    DueAreNew(s.db.windows, id, s.now, FirstStart(s.db.audit, id), 0);
    if (id, start) !in s.db.windows { NoneCarries(s.db, id, start); }
  }

  /** Over any run: when the window pass comes to a window, no accepted observation of the run carries it. What the code
      would do with counts it therefore never does; trailing monitors answer UNAVAILABLE, and no alert is opened. */
  lemma NeverSupplied(cfg: Config, acts: seq<Action>, id: Id, k: nat)
    requires var s := Reached(cfg, COLD, acts);
             k < |DueWindows(s.db.windows, id, s.now, FirstStart(s.db.audit, id), 0)|
    ensures var s := Reached(cfg, COLD, acts);
            var due := DueWindows(s.db.windows, id, s.now, FirstStart(s.db.audit, id), 0);
            var d := AttemptAll(s.db, s.now, id, due[..k]);
            (id, due[k]) !in d.windows && forall o | o in ObservationsOf(d, id) :: !Carries(o, due[k])
  {
    hide Inv, Blind, Reached, AttemptAll, DueWindows, FirstStart;
    var s := Reached(cfg, COLD, acts);
    var due := DueWindows(s.db.windows, id, s.now, FirstStart(s.db.audit, id), 0);
    AlwaysBlind(cfg, acts);
    KeyedRuns(s.db);
    DueAreNew(s.db.windows, id, s.now, FirstStart(s.db.audit, id), 0);
    AttemptAllStaysBlind(s.db, s.now, id, due[..k]);
    NoneCarries(AttemptAll(s.db, s.now, id, due[..k]), id, due[k]);
  }

  /** Over any run: every run's drift state stays WARMUP, and no trailing monitor ever gives a verdict. */
  lemma TrailingIsSilent(cfg: Config, acts: seq<Action>)
    ensures var db := Reached(cfg, COLD, acts).db;
            && (forall id | id in db.runs :: Warm(db.runs[id].drift))
            && forall i | 0 <= i < |db.audit| && db.audit[i].value.AWindow? ::
                AllUnavailable(db.audit[i].value.findings)
  {
    hide Reached, PoliciesOk, RunsOk, StreamsOk, ChecksOk, ReviewsOk, ClearsOk, AllUnavailable, Mirrored;
    AlwaysBlind(cfg, acts);
    var db := Reached(cfg, COLD, acts).db;
    forall i | 0 <= i < |db.audit| && db.audit[i].value.AWindow? ensures AllUnavailable(db.audit[i].value.findings) {
      assert LegalAt(db.audit, i);
    }
  }

  // ---- what a pass covers ----

  /** A ten-second window from `start` on that is over by half a second and of which nothing is recorded. */
  predicate Owed(rows: Rows, id: Id, now: nat, start: nat, s: nat) {
    s >= start && (s - start) % 10_000 == 0 && s + 10_500 <= now && (id, s) !in rows
  }

  ghost predicate Rising(due: seq<nat>) { forall i, j | 0 <= i < j < |due| :: due[i] < due[j] }

  ghost predicate NoneSkipped(due: seq<nat>, rows: Rows, id: Id, now: nat, start: nat, most: nat) {
    forall s: nat | Owed(rows, id, now, start, s) :: s in due || (0 < |due| == most && due[|due| - 1] < s)
  }

  /** The owed windows, each once and in order, or the first of them if there are more than can be done at once. */
  ghost predicate AllOwed(due: seq<nat>, rows: Rows, id: Id, now: nat, start: nat, most: nat) {
    && |due| <= most && (forall i | 0 <= i < |due| :: Owed(rows, id, now, start, due[i]))
    && Rising(due) && NoneSkipped(due, rows, id, now, start, most)
  }

  lemma OwedLater(rows: Rows, id: Id, now: nat, start: nat, s: nat)
    ensures Owed(rows, id, now, start, s) <==>
            Owed(rows, id, now, start + 10_000, s) || (s == start && Owed(rows, id, now, start, start))
    ensures Owed(rows, id, now, start + 10_000, s) ==> s > start
    ensures (id, start) in rows ==> !Owed(rows, id, now, start, start)
  {
    if s >= start + 10_000 {
      Shifted(s - (start + 10_000));
    } else if s >= start {
      assert s > start ==> (s - start) % 10_000 == s - start;
    }
  }

  lemma Shifted(x: nat)
    ensures (x + 10_000) % 10_000 == x % 10_000
  {}

  /** From a boundary of which something is recorded the same is owed as from the next. */
  lemma OwedSkip(due: seq<nat>, rows: Rows, id: Id, now: nat, start: nat, most: nat)
    requires AllOwed(due, rows, id, now, start + 10_000, most) && (id, start) in rows
    ensures AllOwed(due, rows, id, now, start, most)
  {
    hide Owed;
    forall s: nat ensures Owed(rows, id, now, start, s) <==> Owed(rows, id, now, start + 10_000, s) {
      OwedLater(rows, id, now, start, s);
    }
  }

  /** From one that is owed, itself first. */
  lemma OwedCons(due: seq<nat>, rows: Rows, id: Id, now: nat, start: nat, most: nat)
    requires AllOwed(due, rows, id, now, start + 10_000, most) && Owed(rows, id, now, start, start)
    ensures AllOwed([start] + due, rows, id, now, start, most + 1)
  {
    hide Owed, Rising, NoneSkipped;
    var all := [start] + due;
    forall i | 0 <= i < |all| ensures Owed(rows, id, now, start, all[i]) && (i > 0 ==> start < all[i]) {
      if i > 0 {
        assert all[i] == due[i - 1];
        OwedLater(rows, id, now, start, due[i - 1]);
      }
    }
    RisesFrom(start, due);
    NoneSkippedFrom(due, rows, id, now, start, most);
  }

  lemma RisesFrom(start: nat, due: seq<nat>)
    requires Rising(due) && forall i | 0 < i < |[start] + due| :: start < ([start] + due)[i]
    ensures Rising([start] + due)
  {}

  lemma NoneSkippedFrom(due: seq<nat>, rows: Rows, id: Id, now: nat, start: nat, most: nat)
    requires NoneSkipped(due, rows, id, now, start + 10_000, most)
    ensures NoneSkipped([start] + due, rows, id, now, start, most + 1)
  {
    hide Owed;
    var all := [start] + due;
    forall s: nat | Owed(rows, id, now, start, s)
      ensures s in all || (0 < |all| == most + 1 && all[|all| - 1] < s)
    {
      OwedLater(rows, id, now, start, s);
      if s != start && s !in due { assert all[|all| - 1] == due[|due| - 1]; }
    }
  }

  /** What the daemon counts as due is exactly what is owed, up to 4097 windows in one pass. */
  lemma {:induction false} DueAreOwed(rows: Rows, id: Id, now: nat, start: nat, found: nat)
    requires found <= 4096
    ensures AllOwed(DueWindows(rows, id, now, start, found), rows, id, now, start, 4097 - found)
    decreases now - start
  {
    hide AllOwed;
    if start + WINDOW_MS + WINDOW_DUE_MS > now {
      NoneOwed(rows, id, now, start, 4097 - found);
    } else if (id, start) in rows {
      DueAreOwed(rows, id, now, start + 10_000, found);
      OwedSkip(DueWindows(rows, id, now, start + 10_000, found), rows, id, now, start, 4097 - found);
    } else if found + 1 > DUE_TOTAL {
      OneOwed(rows, id, now, start);
    } else {
      DueAreOwed(rows, id, now, start + 10_000, found + 1);
      OwedCons(DueWindows(rows, id, now, start + 10_000, found + 1), rows, id, now, start, 4096 - found);
    }
  }

  lemma NoneOwed(rows: Rows, id: Id, now: nat, start: nat, most: nat)
    requires start + 10_500 > now
    ensures AllOwed([], rows, id, now, start, most)
  {}

  lemma OneOwed(rows: Rows, id: Id, now: nat, start: nat)
    requires start + 10_500 <= now && (id, start) !in rows
    ensures AllOwed([start], rows, id, now, start, 1)
  {}

  /** The first window of a run is the first ten-second boundary not before its opening. */
  lemma FirstIsBoundary(audit: seq<Event>, run: Id)
    ensures var at := if OpenedAt(audit, run).Some? then OpenedAt(audit, run).value else 0;
            FirstStart(audit, run) % 10_000 == 0 && at <= FirstStart(audit, run) < at + 10_000
  {}

  /** Every due window of a live run is on record once the pass is over. */
  lemma {:induction false} AllRecorded(db: Db, now: nat, id: Id, starts: seq<nat>)
    requires forall k | k in db.runs :: db.runs[k].id == k
    requires id in db.runs && db.runs[id].state in {Open, Paused} && RunPolicy(db, id).Some?
    ensures var d := AttemptAll(db, now, id, starts);
            && (forall k | k in db.windows :: k in d.windows && d.windows[k] == db.windows[k])
            && (forall i | 0 <= i < |starts| :: (id, starts[i]) in d.windows)
            && (forall k | k in d.windows && k !in db.windows :: d.windows[k] == None)
    decreases |starts|
  {
    hide Attempted, PolicyIn;
    if starts != [] {
      OneRecorded(db, now, id, starts[0]);
      AllRecorded(Attempted(db, now, id, starts[0]), now, id, starts[1..]);
      assert forall i | 0 < i < |starts| :: starts[i] == starts[1..][i - 1];
    }
  }

  lemma OneRecorded(db: Db, now: nat, id: Id, start: nat)
    requires forall k | k in db.runs :: db.runs[k].id == k
    requires id in db.runs && db.runs[id].state in {Open, Paused} && RunPolicy(db, id).Some?
    ensures var d := Attempted(db, now, id, start);
            && d.windows == (if (id, start) in db.windows then db.windows else db.windows[(id, start) := None])
            && (forall k | k in d.runs :: d.runs[k].id == k)
            && id in d.runs && d.runs[id].state in {Open, Paused} && RunPolicy(d, id) == RunPolicy(db, id)
            && |d.audit| > |db.audit| && d.audit[|db.audit|].kind == TrailingEvaluated
            && d.audit[|db.audit|].value.AWindow? && d.audit[|db.audit|].value.ofRun == id
            && d.audit[|db.audit|].value.startMs == start
            && d.audit[|db.audit|].value.findings == Missed(db, db.runs[id], RunPolicy(db, id).value)
  {
    hide Missed, D.Next, Put, PolicyIn;
    var r, p := db.runs[id], RunPolicy(db, id).value;
    var m, w := Marked(db, id, start), AWindow(id, start, Missed(db, r, p));
    var drift := D.Next(r.drift, D.Slot(start, D.NoWindow), p);
    PutFrame(m, now, TrailingEvaluated, w);
    PutFrame(Put(m, now, TrailingEvaluated, w), now, DriftUpdated,
             ARun(r.(drift := drift, revision := r.revision + 1)));
  }

  /** A pass over an OPEN or PAUSED run puts every window it owes on record, up to 4097 of them, earliest first. */
  lemma PassRecords(db: Db, now: nat, id: Id)
    requires Inv(db) && id in db.runs && db.runs[id].state in {Open, Paused}
    ensures var d, first := PassWindows(db, now, id), FirstStart(db.audit, id);
            var due := DueWindows(db.windows, id, now, first, 0);
            && AllOwed(due, db.windows, id, now, first, 4097)
            && (forall k | k in db.windows :: k in d.windows && d.windows[k] == db.windows[k])
            && (forall s: nat | Owed(db.windows, id, now, first, s) && (|due| == 4097 ==> s <= due[4096]) ::
                  (id, s) in d.windows && d.windows[(id, s)] == None)
  {
    hide Inv, AttemptAll, DueWindows, FirstStart, Owed, PolicyIn;
    var first := FirstStart(db.audit, id);
    var due := DueWindows(db.windows, id, now, first, 0);
    KeyedRuns(db);
    LiveHasPolicy(db, id);
    DueAreOwed(db.windows, id, now, first, 0);
    AllRecorded(db, now, id, due);
    var d := AttemptAll(db, now, id, due);
    forall s: nat | Owed(db.windows, id, now, first, s) && (|due| == 4097 ==> s <= due[4096])
      ensures (id, s) in d.windows && d.windows[(id, s)] == None
    {
      OwedIsNew(db.windows, id, now, first, s);
      var i :| 0 <= i < |due| && due[i] == s;
      assert (id, due[i]) in d.windows;
    }
  }

  /** A trailing monitor of the policy has this id. */
  predicate Trails(p: Policy, x: Id) {
    exists i :: 0 <= i < |p.monitors| && p.monitors[i].mode == Trailing && p.monitors[i].id == x
  }

  /** The monitors that answer, in order. */
  function Speakers(answers: seq<Result>): (r: seq<Id>)
    ensures |r| == |answers| && forall i | 0 <= i < |r| :: r[i] == answers[i].monitor
  {
    seq(|answers|, i requires 0 <= i < |answers| => answers[i].monitor)
  }

  /** One attempt at a window: its event carries one answer of each of the policy's trailing monitors, in the order of
      their ids, and every answer is that the window is missing. */
  lemma EveryTrailingAnswers(db: Db, now: nat, id: Id, start: nat)
    requires forall k | k in db.runs :: db.runs[k].id == k
    requires id in db.runs && db.runs[id].state in {Open, Paused} && RunPolicy(db, id).Some?
    ensures var d := Attempted(db, now, id, start);
            && |d.audit| > |db.audit| && d.audit[|db.audit|].value.AWindow?
            && var answers := d.audit[|db.audit|].value.findings;
               && Sorted(Speakers(answers))
               && (forall i, j | 0 <= i < j < |answers| :: answers[i].monitor != answers[j].monitor)
               && (forall x :: x in Speakers(answers) <==> Trails(RunPolicy(db, id).value, x))
               && (forall i | 0 <= i < |answers| ::
                     answers[i].verdict == Unavailable && answers[i].reason == "WINDOW_MISSING")
  {
    hide Attempted, Missed, Trails, PolicyIn, Put, Sorted;
    OneRecorded(db, now, id, start);
    MissedSays(db, db.runs[id], RunPolicy(db, id).value);
  }

  lemma MissedSays(db: Db, r: Run, p: Policy)
    ensures var answers := Missed(db, r, p);
            && Sorted(Speakers(answers))
            && (forall i, j | 0 <= i < j < |answers| :: answers[i].monitor != answers[j].monitor)
            && (forall x :: x in Speakers(answers) <==> Trails(p, x))
            && (forall i | 0 <= i < |answers| ::
                  answers[i].verdict == Unavailable && answers[i].reason == "WINDOW_MISSING")
  {
    hide Sorted;
    assert Speakers(Missed(db, r, p)) == TrailingIds(p);
  }

  lemma OwedIsNew(rows: Rows, id: Id, now: nat, start: nat, s: nat)
    requires Owed(rows, id, now, start, s)
    ensures (id, s) !in rows
  {}

  lemma LiveHasPolicy(db: Db, id: Id)
    requires Inv(db) && id in db.runs
    ensures RunPolicy(db, id).Some?
  {
    hide Kept, PoliciesOk, StreamsOk, ChecksOk, ReviewsOk, ClearsOk;
  }
}
