/** Daemon and guard together: the guard is handed envelopes at any time, and only what the daemon really issued
    verifies. */
module World {
  import opened Basics
  import opened Ids
  import opened Records
  import opened Store
  import opened Protocol
  import opened Timers
  import opened Safety
  import opened Invariants
  import opened TimersKeep
  import opened System
  import opened Guarantees
  import G = DispatchGuard

  datatype Move = Daemon(action: Action) | Present(attempt: G.Attempt)

  datatype World = World(daemon: Sys, attempts: seq<G.Attempt>)

  /** The clearance of a committed CLEAR check: the only clearances that carry the daemon's signature. */
  ghost predicate Issued(db: Db, c: Clearance) {
    exists id :: id in db.checks && db.checks[id].state == CClear && db.checks[id].clearance == Some(c)
  }

  /** Signatures cannot be forged. */
  ghost predicate Possible(w: World, m: Move) {
    m.Present? && m.attempt.envelope.valid ==> Issued(w.daemon.db, m.attempt.envelope.body)
  }

  function Next(cfg: Config, w: World, m: Move): World {
    match m
    case Daemon(a) => w.(daemon := Step(cfg, w.daemon, a))
    case Present(a) => w.(attempts := w.attempts + [a])
  }

  function Walk(cfg: Config, moves: seq<Move>): World {
    if moves == [] then World(COLD, []) else Next(cfg, Walk(cfg, moves[..|moves| - 1]), moves[|moves| - 1])
  }

  ghost predicate AllPossible(cfg: Config, moves: seq<Move>) {
    forall i | 0 <= i < |moves| :: Possible(Walk(cfg, moves[..i]), moves[i])
  }

  lemma TerminalStays(db: Db, next: Db)
    requires Inv(db) && Safe(db, next)
    ensures forall id | id in db.checks && Terminal(db.checks[id].state) ::
              id in next.checks && next.checks[id] == db.checks[id]
  {
    hide PoliciesOk, RunsOk, StreamsOk, ChecksOk, ReviewsOk, ClearsOk, Chained, Lawful;
    assert next.audit[..|db.audit|] == db.audit;
    LifecyclesHold(next.audit, |db.audit|);
  }

  /** A clearance once issued stays the clearance of its check. */
  lemma {:induction false} PresentedWereIssued(cfg: Config, moves: seq<Move>)
    requires AllPossible(cfg, moves)
    ensures Inv(Walk(cfg, moves).daemon.db)
    ensures forall i | 0 <= i < |Walk(cfg, moves).attempts| && Walk(cfg, moves).attempts[i].envelope.valid ::
              Issued(Walk(cfg, moves).daemon.db, Walk(cfg, moves).attempts[i].envelope.body)
  {
    hide Inv, Step, Safe;
    if moves == [] {
      EmptyOk();
    } else {
      var n := |moves| - 1;
      var pre, w := moves[..n], Walk(cfg, moves);
      forall i | 0 <= i < n ensures Possible(Walk(cfg, pre[..i]), pre[i]) { assert pre[..i] == moves[..i]; }
      PresentedWereIssued(cfg, pre);
      var v := Walk(cfg, pre);
      assert Possible(v, moves[n]);
      if moves[n].Daemon? {
        StepKeeps(cfg, v.daemon, moves[n].action);
        SafeIsInv(v.daemon.db, w.daemon.db);
        TerminalStays(v.daemon.db, w.daemon.db);
      }
    }
  }

  lemma SafeIsInv(db: Db, next: Db)
    requires Safe(db, next)
    ensures Inv(next)
  {
    hide Inv;
  }

  /** What stood behind a clearance when it was issued. */
  ghost predicate Earned(db: Db, c: Clearance) {
    exists i | 0 <= i < |db.audit| && ClearEvent(db.audit[i]) ::
      Justified(db, i) && db.audit[i].value.check.clearance == Some(c)
  }

  lemma IssuedIsEarned(db: Db, c: Clearance)
    requires Inv(db) && Issued(db, c)
    ensures Earned(db, c)
    ensures c.check in db.checks && db.checks[c.check].clearance == Some(c)
    ensures PolicyOf(db, c.policy).Some? && ByRef(db, c.observation).Some?
    ensures c.expiresMs <= ByRef(db, c.observation).value.cutMs + PolicyOf(db, c.policy).value.freshnessMs
  {
    hide PoliciesOk, RunsOk, StreamsOk, ChecksOk, ReviewsOk, Chained, Lawful, WithinLimits, PaidBy;
    var id :| id in db.checks && db.checks[id].state == CClear && db.checks[id].clearance == Some(c);
    var i := LastEventOfCheck(db.audit, id);
    assert ClearEvent(db.audit[i]);
    assert Justified(db, i);
  }

  /** Over any run of daemon and guard: a dispatch uses a GUARDED clearance that was issued, was earned, is inside its
      lifetime and the freshness of the observation it was given for, and matches the intent and the run. */
  lemma EveryDispatch(cfg: Config, moves: seq<Move>, t: G.Terms, i: nat)
    requires AllPossible(cfg, moves) && i < |Walk(cfg, moves).attempts|
    requires G.Succeeds(t, Walk(cfg, moves).attempts, i)
    ensures var db, a := Walk(cfg, moves).daemon.db, Walk(cfg, moves).attempts[i];
            var c := a.envelope.body;
            && Earned(db, c) && c.mode == Guarded && c.runtime == t.runtime && G.Binds(c, a.run, a.intent)
            && PolicyOf(db, c.policy).Some? && ByRef(db, c.observation).Some?
            && c.issuedMs <= a.at < c.expiresMs
            && c.expiresMs <= ByRef(db, c.observation).value.cutMs + PolicyOf(db, c.policy).value.freshnessMs
  {
    hide Inv, Earned, Walk;
    PresentedWereIssued(cfg, moves);
    IssuedIsEarned(Walk(cfg, moves).daemon.db, Walk(cfg, moves).attempts[i].envelope.body);
  }

  /** At most one dispatch per check and per (run, action), and no run's dispatches ever exceed the cap together. */
  lemma DispatchesAreBounded(cfg: Config, moves: seq<Move>, t: G.Terms, i: nat, j: nat, run: Id)
    requires AllPossible(cfg, moves) && i < j < |Walk(cfg, moves).attempts|
    requires G.Succeeds(t, Walk(cfg, moves).attempts, i) && G.Succeeds(t, Walk(cfg, moves).attempts, j)
    ensures var a, b := Walk(cfg, moves).attempts[i], Walk(cfg, moves).attempts[j];
            && a.envelope.body.check != b.envelope.body.check
            && (a.envelope.body.run == b.envelope.body.run ==> a.intent.action != b.intent.action)
    ensures G.Spent(t, Walk(cfg, moves).attempts, run) <= t.cap
  {
    hide Inv, Earned, Walk;
    var w := Walk(cfg, moves);
    PresentedWereIssued(cfg, moves);
    IssuedIsEarned(w.daemon.db, w.attempts[i].envelope.body);
    IssuedIsEarned(w.daemon.db, w.attempts[j].envelope.body);
    G.DispatchOnce(t, w.attempts, i, j);
    G.WithinCap(t, w.attempts, run);
  }

  /** What the clearance of a check says, in terms of the check, its run, and the policy and observation it
      stands on. */
  lemma ClearanceSays(db: Db, id: Id)
    requires Inv(db) && id in db.checks && db.checks[id].state == CClear
    ensures var k := db.checks[id];
            && k.clearance.Some? && k.run in db.runs && PolicyOf(db, k.policy).Some? && ByRef(db, k.observation).Some?
            && var c, r := k.clearance.value, db.runs[k.run];
               && c.run == k.run == r.id && c.check == id && c.intent == OfIntent(k.intent) && c.policy == k.policy
               && c.runtime == r.runtime && c.guardEpoch == r.guardEpoch && c.boot == r.boot && c.mode == r.mode
               && c.expiresMs == LifeEnds(c.issuedMs, PolicyOf(db, k.policy).value, ByRef(db, k.observation).value)
  {
    hide PoliciesOk, RunsOk, StreamsOk, ChecksOk, ReviewsOk, Chained, Lawful, WithinLimits, PaidBy, OwnBasis;
    var i := LastEventOfCheck(db.audit, id);
    assert ClearEvent(db.audit[i]);
    assert Justified(db, i);
  }

  /** Over any run of daemon and guard: the clearance of a cleared check, presented as the daemon issued it, is
      dispatched exactly if its run is GUARDED and of this runtime, the guard sees that run and that intent, the
      attempt is authorized and the target unchanged, the clock is at or past the issue and before both the clearance
      time and the freshness of the observation run out, neither clearance nor action was used, and the cost fits under
      the cap. */
  lemma MustDispatch(cfg: Config, moves: seq<Move>, t: G.Terms, i: nat, id: Id)
    requires AllPossible(cfg, moves) && i < |Walk(cfg, moves).attempts|
    requires id in Walk(cfg, moves).daemon.db.checks && Walk(cfg, moves).daemon.db.checks[id].state == CClear
    requires Walk(cfg, moves).daemon.db.checks[id].clearance.Some?
    requires Walk(cfg, moves).attempts[i].envelope
             == Signed(Walk(cfg, moves).daemon.db.checks[id].clearance.value, true)
    ensures var db, all := Walk(cfg, moves).daemon.db, Walk(cfg, moves).attempts;
            var k, a := db.checks[id], all[i];
            && k.run in db.runs && PolicyOf(db, k.policy).Some? && ByRef(db, k.observation).Some?
            && var r, p, o := db.runs[k.run], PolicyOf(db, k.policy).value, ByRef(db, k.observation).value;
               var issued := k.clearance.value.issuedMs;
               G.Succeeds(t, all, i) <==>
                 && a.readable && a.tenant == t.tenant && a.authorized
                 && r.mode == Guarded && r.runtime == t.runtime
                 && a.run.id == k.run && a.run.guardEpoch == r.guardEpoch && a.run.boot == r.boot
                 && a.run.policy == k.policy && a.intent == k.intent
                 && a.targetRevision == k.intent.targetRevision
                 && issued <= a.at < issued + p.clearanceMs && a.at < o.cutMs + p.freshnessMs
                 && !G.Used(t, all[..i], a) && G.Spent(t, all[..i], k.run) + a.cost <= t.cap
  {
    hide Inv, Earned, Walk, G.Used, G.Spent, G.Succeeds, PolicyIn, RefIn;
    PresentedWereIssued(cfg, moves);
    ClearanceSays(Walk(cfg, moves).daemon.db, id);
    G.DispatchesExactly(t, Walk(cfg, moves).attempts, i);
  }
}
