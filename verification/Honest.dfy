/** An honest source is never taken for a forking one, however its observations are delivered
    (crates/watch/src/methods.rs, `observations_append`). */
module Honest {
  import opened Basics
  import opened Ids
  import opened Records
  import opened Store
  import opened Detect
  import opened Protocol
  import opened Timers
  import opened Safety
  import opened Invariants
  import opened TimersKeep
  import opened System
  import opened Guarantees
  import opened Punctual
  import TB = TokenBucket

  /** What a source that keeps its own log signs for run x: linked, in order, never turning a counter back, and never
      counting one window in two ways. */
  ghost predicate HonestChain(h: seq<Observation>, x: Id) {
    && (forall i | 0 <= i < |h| :: h[i].run == x && ChainLink(h, i))
    && (forall i, j | 0 <= i < j < |h| ::
          h[i].cutMs <= h[j].cutMs && h[i].snapshot.committed <= h[j].snapshot.committed)
    && (forall i, j | 0 <= i < |h| && 0 <= j < |h| :: SameCounts(h[i].snapshot.window, h[j].snapshot.window))
  }

  ghost predicate ChainLink(h: seq<Observation>, i: nat)
    requires i < |h|
  {
    h[i].pos == i + 1 && h[i].prev == (if i == 0 then ZeroHash else OfObservation(h[i - 1]))
  }

  ghost predicate SameCounts(a: Option<Window>, b: Option<Window>) {
    a.Some? && b.Some? && a.value.startMs == b.value.startMs ==> a.value.counts == b.value.counts
  }

  /** Run x is not quarantined, its log is a prefix of the chain, and its windows hold what the chain says. */
  ghost predicate Unspoiled(db: Db, h: seq<Observation>, x: Id) {
    && (x in db.runs ==> db.runs[x].state != Quarantined)
    && StreamIn(db.observations, x) <= h
    && forall k | k in db.windows && k.0 == x && db.windows[k].Some? :: FromChain(h, k.1, db.windows[k].value)
  }

  ghost predicate FromChain(h: seq<Observation>, start: nat, counts: Bins) {
    exists i | 0 <= i < |h| :: h[i].snapshot.window.Some? && h[i].snapshot.window.value.startMs == start
                               && h[i].snapshot.window.value.counts == counts
  }

  /** What the cursor of a run says about an accepted log that is a prefix of the chain. */
  lemma CursorInChain(r: Run, os: seq<Observation>, h: seq<Observation>)
    requires StreamOk(r, os) && os <= h
    ensures r.cursor.pos == |os|
    ensures r.cursor.hash == if os == [] then ZeroHash else OfObservation(h[|os| - 1])
    ensures r.lastCutMs == if os == [] then None else Some(h[|os| - 1].cutMs)
  {
    hide LinkOk;
  }

  lemma NextInChain(h: seq<Observation>, x: Id, m: nat)
    requires HonestChain(h, x) && m < |h|
    ensures h[m].run == x && h[m].pos == m + 1
    ensures h[m].prev == if m == 0 then ZeroHash else OfObservation(h[m - 1])
    ensures m > 0 ==> h[m - 1].cutMs <= h[m].cutMs && h[m - 1].snapshot.committed <= h[m].snapshot.committed
  {
    hide SameCounts;
    assert ChainLink(h, m);
  }

  lemma WindowAgrees(db: Db, x: Id, h: seq<Observation>, m: nat)
    requires HonestChain(h, x) && Unspoiled(db, h, x) && m < |h|
    ensures var w := h[m].snapshot.window;
            w.Some? && (x, w.value.startMs as nat) in db.windows && db.windows[(x, w.value.startMs as nat)].Some?
            ==> db.windows[(x, w.value.startMs as nat)].value == w.value.counts
  {
    hide ChainLink;
    var w := h[m].snapshot.window;
    if w.Some? && (x, w.value.startMs as nat) in db.windows && db.windows[(x, w.value.startMs as nat)].Some? {
      var counts := db.windows[(x, w.value.startMs as nat)].value;
      assert FromChain(h, w.value.startMs, counts);
      var i :| 0 <= i < |h| && h[i].snapshot.window.Some? && h[i].snapshot.window.value.startMs == w.value.startMs
               && h[i].snapshot.window.value.counts == counts;
      assert SameCounts(h[i].snapshot.window, w);
    }
  }

  /** Whatever of the chain comes next is admitted, or declined for now; it never looks like a fork. */
  lemma ChainIsAdmissible(db: Db, now: Counter, r: Run, h: seq<Observation>, m: nat)
    requires HonestChain(h, r.id) && Unspoiled(db, h, r.id) && StreamOk(r, StreamIn(db.observations, r.id))
    requires m == |StreamIn(db.observations, r.id)| < |h|
    ensures !Admissible(db, now, r, h[m]).Isolate?
  {
    hide HonestChain, StreamOk, FromChain;
    var os := StreamIn(db.observations, r.id);
    CursorInChain(r, os, h);
    NextInChain(h, r.id, m);
    WindowAgrees(db, r.id, h, m);
    assert m > 0 ==> os[m - 1] == h[m - 1];
  }

  lemma AcceptStaysUnspoiled(db: Db, now: Counter, r: Run, h: seq<Observation>, m: nat)
    requires HonestChain(h, r.id) && Unspoiled(db, h, r.id)
    requires m == |StreamIn(db.observations, r.id)| < |h| && r.state != Quarantined
    ensures Unspoiled(Accept(db, now, r, h[m]), h, r.id)
  {
    hide RowOf, NextEvent, HonestChain;
    var d := Accept(db, now, r, h[m]);
    assert StreamIn(d.observations, r.id) == h[..m + 1];
    forall k | k in d.windows && k.0 == r.id && d.windows[k].Some? ensures FromChain(h, k.1, d.windows[k].value) {
      if k in db.windows && d.windows[k] == db.windows[k] {
        assert FromChain(h, k.1, db.windows[k].value);
      } else {
        assert h[m].snapshot.window.value.startMs == k.1;
      }
    }
  }

  lemma PauseStaysUnspoiled(db: Db, host: HostState, now: nat, r: Run, c: Code, h: seq<Observation>, x: Id)
    requires Unspoiled(db, h, x)
    ensures Unspoiled(PauseSource(db, host, now, r, c).db, h, x)
  {
    hide Put, FinishAll, FromChain;
    PutFrame(db, now, RunPaused, ARun(Halt(r, Paused, CodeName(c))));
  }

  /** Nothing that happens to another run's observations touches run x. */
  lemma OthersStayUnspoiled(db: Db, host: HostState, now: Counter, r: Run, o: Observation, c: Code,
                            h: seq<Observation>, x: Id)
    requires Unspoiled(db, h, x) && r.id != x
    ensures Unspoiled(Quarantine(db, host, now, r, c).db, h, x)
    ensures Unspoiled(Accept(db, now, r, o), h, x)
  {
    hide Put, FinishAll, ExpireAll, FromChain, Accept;
    PutFrame(db, now, RunQuarantined, ARun(Halt(r, Quarantined, CodeName(c))));
    AcceptElsewhere(db, now, r, o, x);
  }

  lemma AcceptElsewhere(db: Db, now: Counter, r: Run, o: Observation, x: Id)
    requires r.id != x
    ensures var d := Accept(db, now, r, o);
            && StreamIn(d.observations, x) == StreamIn(db.observations, x)
            && (x in d.runs <==> x in db.runs) && (x in db.runs ==> d.runs[x] == db.runs[x])
            && forall k | k in d.windows && k.0 == x :: k in db.windows && d.windows[k] == db.windows[k]
  {
    AcceptTables(db, now, r, o);
    hide Accept;
  }

  lemma AcceptTables(db: Db, now: Counter, r: Run, o: Observation)
    ensures var d, w := Accept(db, now, r, o), o.snapshot.window;
            && d.runs == db.runs[r.id := Advanced(r, now, o)]
            && d.observations == db.observations[r.id := ObservationsOf(db, r.id) + [o]]
            && (d.windows == db.windows
                || (w.Some? && d.windows == db.windows[(r.id, w.value.startMs as nat) := Some(w.value.counts)]))
  {
    hide Put, Advanced;
    var w := o.snapshot.window;
    var key := (r.id, if w.Some? then w.value.startMs as nat else 0);
    var d := db.(observations := db.observations[r.id := ObservationsOf(db, r.id) + [o]],
                 windows := if w.Some? && key !in db.windows then db.windows[key := Some(w.value.counts)]
                     else db.windows);
    PutFrame(d, now, ObservationAccepted, ARun(Advanced(r, now, o)));
    AdvancedId(r, now, o);
  }

  lemma AdvancedId(r: Run, now: Counter, o: Observation)
    ensures Advanced(r, now, o).id == r.id
  {}

  lemma ObserveHonest(cfg: Config, db: Db, host: HostState, now: Counter, p: Principal, so: Signed<Observation>,
                      h: seq<Observation>, x: Id)
    requires Inv(db) && HonestChain(h, x) && Unspoiled(db, h, x)
    requires so.body.run == x && so.valid ==> so.body in h
    ensures var plan := Observe(cfg, db, host, now, p, so); plan.Commit? ==> Unspoiled(plan.db, h, x)
  {
    hide Kept, PoliciesOk, RunsOk, ChecksOk, ReviewsOk, ClearsOk, Unspoiled, HonestChain, Accept, Admissible,
         PauseSource, Quarantine, StreamOk, RefIn;
    Keyed(db);
    var o := so.body;
    if o.run in db.runs {
      var r := db.runs[o.run];
      PauseStaysUnspoiled(db, host, now, r, SourceGap, h, x);
      if o.run != x {
        OthersStayUnspoiled(db, host, now, r, o, SourceFork, h, x);
        OthersStayUnspoiled(db, host, now, r, o, CounterRollback, h, x);
        if Admissible(db, now, r, o).Isolate? {
          OthersStayUnspoiled(db, host, now, r, o, Admissible(db, now, r, o).code, h, x);
        }
      } else if so.valid && r.state !in {Closed, Quarantined} {
        var m := ChainPosition(db, r, h, o);
        if m == |StreamIn(db.observations, x)| {
          ChainIsAdmissible(db, now, r, h, m);
          AcceptStaysUnspoiled(db, now, r, h, m);
        }
      }
    }
  }

  /** Where an observation of the chain stands against the run's cursor. */
  lemma ChainPosition(db: Db, r: Run, h: seq<Observation>, o: Observation) returns (m: nat)
    requires HonestChain(h, r.id) && Unspoiled(db, h, r.id) && StreamOk(r, StreamIn(db.observations, r.id)) && o in h
    ensures m < |h| && o == h[m] && o.pos == m + 1 && r.cursor.pos == |StreamIn(db.observations, r.id)|
    ensures o.pos == r.cursor.pos ==> OfObservation(o) == r.cursor.hash
    ensures o.pos < r.cursor.pos ==> ByRef(db, RefOf(o)).Some?
  {
    hide HonestChain, StreamOk, FromChain;
    m :| 0 <= m < |h| && h[m] == o;
    var os := StreamIn(db.observations, r.id);
    CursorInChain(r, os, h);
    NextInChain(h, r.id, m);
    if m < |os| { assert os[m] == h[m]; }
  }

  // ---- every other step ----

  lemma QuietStaysUnspoiled(db: Db, next: Db, h: seq<Observation>, x: Id)
    requires Unspoiled(db, h, x) && next.observations == db.observations && WindowsMove(db, next)
    requires NoneNewlyIsolated(db.runs, next.runs)
    ensures Unspoiled(next, h, x)
  {
    hide FromChain;
  }

  lemma {:induction false} SilenceIsolatesNone(db: Db, now: nat, ids: seq<Id>)
    requires HasRuns(db, ids)
    ensures NoneNewlyIsolated(db.runs, PauseSilent(db, now, ids).runs)
    ensures DriftsKept(db.runs, PauseSilent(db, now, ids).runs)
    decreases |ids|
  {
    hide Put, FinishAll;
    if ids != [] {
      if db.runs[ids[0]].state != Open {
        SilenceIsolatesNone(db, now, ids[1..]);
      } else {
        var d := Put(db, now, RunPaused, ARun(Halt(db.runs[ids[0]], Paused, "SOURCE_SILENCE")));
        PutFrame(db, now, RunPaused, ARun(Halt(db.runs[ids[0]], Paused, "SOURCE_SILENCE")));
        SilenceIsolatesNone(StaleChecks(d, now, ids[0]), now, ids[1..]);
      }
    }
  }

  lemma {:induction false} PauseAllIsolatesNone(db: Db, now: nat, ids: seq<Id>)
    requires HasRuns(db, ids)
    ensures NoneNewlyIsolated(db.runs, PauseAll(db, now, ids).runs)
    ensures DriftsKept(db.runs, PauseAll(db, now, ids).runs)
    decreases |ids|
  {
    hide RowOf, NextEvent;
    if ids != [] {
      PauseAllIsolatesNone(Put(db, now, RunPaused, ARun(Halt(db.runs[ids[0]], Paused, "RESTART"))), now, ids[1..]);
    }
  }

  ghost predicate SameInputs(db: Db, next: Db) {
    next.observations == db.observations && next.windows == db.windows && next.runs == db.runs
  }

  lemma HostEventsAreQuiet(db: Db, now: nat)
    ensures SameInputs(db, Begun(db, now)) && SameInputs(db, Behind(db, now)) && SameInputs(db, Readied(db, now))
  {
    hide Put;
    var d := db.(hostEpoch := db.hostEpoch + 1);
    PutFrame(d, now, HostStarted, AHost(Host(Starting, d.hostEpoch)));
    PutFrame(db, now, HostFaulted, AHost(Host(Faulted, db.hostEpoch)));
    PutFrame(db, now, HostReady, AHost(Host(Ready, db.hostEpoch)));
  }

  lemma RecoveredIsQuiet(db: Db, now: nat)
    ensures SameIntake(db, Recovered(db, now))
  {
    hide PauseAll, ExpireAll, FinishAll;
    PauseAllIsolatesNone(db, now, OpenRunIds(db));
  }

  /** A start, however far it gets, takes in nothing and quarantines nothing. */
  lemma BootIsQuiet(s: Sys, parts: nat, least: nat)
    ensures SameIntake(s.db, Restart(s, parts, least).db)
  {
    hide Begun, Behind, Readied, Recovered;
    var b := Begun(s.db, s.now);
    HostEventsAreQuiet(s.db, s.now);
    HostEventsAreQuiet(b, s.now);
    RecoveredIsQuiet(b, s.now);
    HostEventsAreQuiet(Recovered(b, s.now), s.now);
  }

  lemma BootStaysUnspoiled(s: Sys, parts: nat, least: nat, h: seq<Observation>, x: Id)
    requires Unspoiled(s.db, h, x)
    ensures Unspoiled(Restart(s, parts, least).db, h, x)
  {
    hide Restart, Unspoiled;
    BootIsQuiet(s, parts, least);
    QuietStaysUnspoiled(s.db, Restart(s, parts, least).db, h, x);
  }

  lemma MovesStaysUnspoiled(db: Db, next: Db, now: nat, h: seq<Observation>, x: Id)
    requires Unspoiled(db, h, x) && Moves(db, next, now)
    ensures Unspoiled(next, h, x)
  {
    hide Unspoiled;
    QuietStaysUnspoiled(db, next, h, x);
  }

  lemma RowStaysUnspoiled(db: Db, key: (Id, Id), entry: (Request, Reply), h: seq<Observation>, x: Id)
    requires Unspoiled(db, h, x)
    ensures Unspoiled(db.(idempotency := db.idempotency[key := entry]), h, x)
  {
    hide FromChain;
  }

  lemma AskStaysUnspoiled(cfg: Config, s: Sys, a: Action, h: seq<Observation>, x: Id)
    requires Inv(s.db) && HonestChain(h, x) && Unspoiled(s.db, h, x) && a.Ask?
    requires Delivers(a, h, x)
    ensures Unspoiled(Step(cfg, s, a).db, h, x)
  {
    hide Inv, Handle, RoleAllowed, TB.Admits, TB.After, AfterCreate, Unspoiled, HonestChain;
    var plan := Handle(cfg, s.db, s.host, s.now, a.p, a.q);
    if plan.Commit? {
      HandlersLeaveRows(cfg, s.db, s.host, s.now, a.p, a.q);
      if a.q.Append? {
        HandleAppend(cfg, s.db, s.host, s.now, a.p, a.q);
        ObserveHonest(cfg, s.db, s.host.state, s.now, a.p, a.q.observation, h, x);
      } else {
        QuietStaysUnspoiled(s.db, plan.db, h, x);
      }
      var key := (a.p.id, a.rid);
      var d := plan.db.(idempotency := plan.db.idempotency[key := (a.q, plan.out)]);
      NestedOutboxRollsBack(d, a.q, (key, (a.q, plan.out)), a.taken);
      RowStaysUnspoiled(plan.db, key, (a.q, plan.out), h, x);
    }
  }

  lemma HandleAppend(cfg: Config, db: Db, host: Host, now: Counter, p: Principal, q: Request)
    requires q.Append?
    ensures Handle(cfg, db, host, now, p, q) == Observe(cfg, db, host.state, now, p, q.observation)
  {}

  lemma StepStaysUnspoiled(cfg: Config, s: Sys, a: Action, h: seq<Observation>, x: Id)
    requires Inv(s.db) && HonestChain(h, x) && Unspoiled(s.db, h, x) && Delivers(a, h, x)
    ensures Unspoiled(Step(cfg, s, a).db, h, x)
  {
    hide Inv, Unspoiled, HonestChain, Moves, Restart, Dispatch, PauseSilent, ExpireAll, ReleaseAll, WakeAll,
         MaybeFinalize, ApplyReply, StoreReply, PassWindows;
    if a.Ask? {
      AskStaysUnspoiled(cfg, s, a, h, x);
    } else if a.Boot? {
      BootStaysUnspoiled(s, a.parts, a.minimumHead, h, x);
    } else if Rest(a) {
      StepMoves(cfg, s, a);
      MovesStaysUnspoiled(s.db, Step(cfg, s, a).db, s.now, h, x);
    } else {
      SilenceIsolatesNone(s.db, s.now, SilentRuns(s.db, s.now));
      QuietStaysUnspoiled(s.db, Step(cfg, s, a).db, h, x);
    }
  }

  /** Signatures cannot be forged: a valid observation of run x is one the source signed. It may be lost, repeated or
      late. */
  ghost predicate Delivers(a: Action, h: seq<Observation>, x: Id) {
    a.Ask? && a.q.Append? && a.q.observation.valid && a.q.observation.body.run == x ==> a.q.observation.body in h
  }

  /** Over any run, whatever is lost, repeated or reordered on the way, the run of an honest source is never
      quarantined, and the log accepted for it is a prefix of what the source wrote. */
  lemma {:induction false} NeverQuarantined(cfg: Config, acts: seq<Action>, h: seq<Observation>, x: Id)
    requires HonestChain(h, x) && forall i | 0 <= i < |acts| :: Delivers(acts[i], h, x)
    ensures var db := Reached(cfg, COLD, acts).db;
            && StreamIn(db.observations, x) <= h && (x in db.runs ==> db.runs[x].state != Quarantined)
    ensures Unspoiled(Reached(cfg, COLD, acts).db, h, x)
  {
    hide Inv, Step, HonestChain, Delivers;
    if acts != [] {
      var pre := acts[..|acts| - 1];
      NeverQuarantined(cfg, pre, h, x);
      Always(cfg, pre, |pre|);
      StepStaysUnspoiled(cfg, Reached(cfg, COLD, pre), acts[|acts| - 1], h, x);
    }
  }
}
