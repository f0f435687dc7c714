/** The open database (crates/watch/src/store.rs) and the emitter (crates/watch/src/events.rs), updated in place.
    A transaction keeps the tables it started from and restores them to roll back. */
module TableStore {
  import opened Basics
  import opened Ids
  import opened Records
  import opened Store
  import opened Protocol

  class Database {
    var audit: seq<Event>
    var history: seq<Row>
    var policies: seq<Policy>
    var runs: map<Id, Run>
    var observations: map<Id, seq<Observation>>
    var actions: map<(Id, Id), Binding>
    var checks: map<Id, Check>
    var slots: map<Id, map<Id, MonitorSlot>>
    var reviews: map<Id, Review>
    var windows: map<(Id, nat), Option<Bins>>
    var cursors: map<nat, Id>
    var outbox: set<(Id, Id)>
    var hostEpoch: nat
    var idempotency: map<(Id, Id), (Request, Reply)>

    function Snapshot(): Db
      reads this
    {
      Tables(audit, history, policies, runs, observations, actions, checks, slots, reviews, windows, cursors, outbox,
             hostEpoch, idempotency)
    }

    constructor ()
      ensures Snapshot() == EMPTY
    {
      audit, history, policies, runs, observations := [], [], [], map[], map[];
      actions, checks, slots, reviews, windows := map[], map[], map[], map[], map[];
      cursors, outbox, hostEpoch, idempotency := map[], {}, 0, map[];
    }

    /** Back to the tables a transaction started from. */
    method Restore(t: Db)
      modifies this
      ensures Snapshot() == t
    {
      RestoreProjections(t);
      actions, slots, windows := t.actions, t.slots, t.windows;
      cursors, outbox := t.cursors, t.outbox;
      hostEpoch, idempotency := t.hostEpoch, t.idempotency;
    }

    method RestoreProjections(t: Db)
      modifies this`audit, this`history, this`policies, this`runs, this`observations, this`checks, this`reviews
      ensures audit == t.audit && history == t.history && policies == t.policies
      ensures runs == t.runs && observations == t.observations && checks == t.checks && reviews == t.reviews
    {
      audit, history := t.audit, t.history;
      policies, runs, observations := t.policies, t.runs, t.observations;
      checks, reviews := t.checks, t.reviews;
    }

    /** The next event of the chain, appended inside the open transaction. */
    method Emit(now: nat, kind: Kind, value: Subject) returns (e: Event)
      modifies this`audit
      ensures e == NextEvent(old(audit), now, kind, value)
      ensures audit == old(audit) + [e]
    {
      var prev := Genesis;
      if |audit| > 0 { prev := Hash(audit[|audit| - 1]); }
      e := Event(|audit| + 1, prev, now, kind, value);
      audit := audit + [e];
    }

    method PutRun(now: nat, kind: Kind, r: Run)
      modifies this
      ensures Snapshot() == Put(old(Snapshot()), now, kind, ARun(r))
    {
      var e := Emit(now, kind, ARun(r));
      runs := runs[r.id := r];
      history := history + [Row(Runs, r.id, e.pos, e.value)];
    }

    method PutCheck(now: nat, kind: Kind, c: Check)
      modifies this
      ensures Snapshot() == Put(old(Snapshot()), now, kind, ACheck(c))
    {
      var e := Emit(now, kind, ACheck(c));
      checks := checks[c.id := c];
      history := history + [Row(Checks, c.id, e.pos, e.value)];
    }

    method PutReview(now: nat, kind: Kind, v: Review)
      modifies this
      ensures Snapshot() == Put(old(Snapshot()), now, kind, AReview(v))
    {
      var e := Emit(now, kind, AReview(v));
      reviews := reviews[v.id := v];
      history := history + [Row(Reviews, v.id, e.pos, e.value)];
    }

    /** Events about the host, a policy or a window overwrite no projection row. */
    method Note(now: nat, kind: Kind, s: Subject)
      requires s.AHost? || s.APolicy? || s.AWindow?
      modifies this
      ensures Snapshot() == Put(old(Snapshot()), now, kind, s)
    {
      var e := Emit(now, kind, s);
      assert RowOf(e) == [];
    }

    /** A plain INSERT under a unique key. */
    method InsertRow(key: (Id, Id), entry: (Request, Reply)) returns (ok: bool)
      modifies this`idempotency
      ensures ok == (key !in old(idempotency))
      ensures idempotency == if ok then old(idempotency)[key := entry] else old(idempotency)
    {
      ok := key !in idempotency;
      if ok { idempotency := idempotency[key := entry]; }
    }
  }
}
