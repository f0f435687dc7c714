/** The runtime's dispatch guard (crates/watch/src/guard.rs): what it demands of a clearance, and its own ledger of
    what was dispatched, consumed and reserved. */
module DispatchGuard {
  import opened Basics
  import opened Ids
  import opened Records
  import opened Protocol

  datatype Reservation = Reservation(run: Id, action: Id, cost: Counter)

  /** The guard's own durable tables. */
  datatype Ledger = Ledger(
    reservations: seq<Reservation>, consumed: set<(Id, Counter, Id)>, dispatched: set<(Id, Id)>)
  const UNUSED := Ledger([], {}, {})

  datatype Outcome = Dispatched | Declined(code: Code)

  /** One attempt: whether the envelope and the clearance in it can be read, the tenant it names, the envelope, the
      runtime's view of its run and intent, the clock, the target and the cost. */
  datatype Attempt = Attempt(
    readable: bool, tenant: Id, envelope: Signed<Clearance>, run: Run, intent: Intent, at: Counter,
    targetRevision: Counter, cost: Counter, authorized: bool)

  datatype Terms = Terms(tenant: Id, runtime: Id, cap: Counter)

  function ReservedFor(rows: seq<Reservation>, run: Id): nat {
    if rows == [] then 0 else
      ReservedFor(rows[..|rows| - 1], run) + if rows[|rows| - 1].run == run then rows[|rows| - 1].cost else 0
  }

  function ConsumeKey(c: Clearance): (Id, Counter, Id) { (c.run, c.guardEpoch, c.check) }

  predicate Binds(c: Clearance, run: Run, intent: Intent) {
    && c.run == run.id && c.guardEpoch == run.guardEpoch && c.boot == run.boot && c.policy == run.policy
    && c.intent == OfIntent(intent)
  }

  /** What an attempt is refused for before the ledger is even opened. */
  function Objection(t: Terms, a: Attempt): Option<Code> {
    var c := a.envelope.body;
    if !a.readable then Some(SignatureInvalid)
    else if a.tenant != t.tenant || c.runtime != t.runtime || c.mode != Guarded || !a.envelope.valid
            || !Binds(c, a.run, a.intent)
    then Some(Forbidden)
    else if a.at >= c.expiresMs || a.at < c.issuedMs then Some(LeaseExpired)
    else if !a.authorized then Some(Forbidden)
    else if a.targetRevision != a.intent.targetRevision then Some(TargetStale)
    else None
  }

  class Guard {
    const terms: Terms
    var reservations: seq<Reservation>
    var consumed: set<(Id, Counter, Id)>
    var dispatched: set<(Id, Id)>

    function Contents(): Ledger
      reads this
    {
      Ledger(reservations, consumed, dispatched)
    }

    constructor (terms: Terms)
      ensures this.terms == terms && Contents() == UNUSED
    {
      this.terms := terms;
      reservations, consumed, dispatched := [], {}, {};
    }

    method Reserved(run: Id) returns (total: nat)
      ensures total == ReservedFor(reservations, run)
    {
      total := 0;
      var i := 0;
      while i < |reservations|
        invariant i <= |reservations| && total == ReservedFor(reservations[..i], run)
      {
        assert reservations[..i + 1][..i] == reservations[..i];
        if reservations[i].run == run { total := total + reservations[i].cost; }
        i := i + 1;
      }
      assert reservations[..i] == reservations;
    }

    method Dispatch(a: Attempt) returns (o: Outcome)
      modifies this
      ensures (Contents(), o) == Attempted(terms, old(Contents()), a)
    {
      var c := a.envelope.body;
      if !a.readable { return Declined(SignatureInvalid); }
      if a.tenant != terms.tenant || c.runtime != terms.runtime || c.mode != Guarded
          || !a.envelope.valid
      {
        return Declined(Forbidden);
      }
      if !Binds(c, a.run, a.intent) { return Declined(Forbidden); }
      if a.at >= c.expiresMs || a.at < c.issuedMs { return Declined(LeaseExpired); }
      if !a.authorized { return Declined(Forbidden); }
      if a.targetRevision != a.intent.targetRevision { return Declined(TargetStale); }
      if ConsumeKey(c) in consumed || (c.run, a.intent.action) in dispatched { return Declined(StateConflict); }
      var total := Reserved(c.run);
      if total + a.cost > terms.cap { return Declined(Forbidden); }
      reservations := reservations + [Reservation(c.run, a.intent.action, a.cost)];
      consumed := consumed + {ConsumeKey(c)};
      dispatched := dispatched + {(c.run, a.intent.action)};
      return Dispatched;
    }
  }

  function Attempted(t: Terms, l: Ledger, a: Attempt): (Ledger, Outcome) {
    var c := a.envelope.body;
    if Objection(t, a).Some? then (l, Declined(Objection(t, a).value))
    else if ConsumeKey(c) in l.consumed || (c.run, a.intent.action) in l.dispatched then (l, Declined(StateConflict))
    else if ReservedFor(l.reservations, c.run) + a.cost > t.cap then (l, Declined(Forbidden))
    else
      (Ledger(l.reservations + [Reservation(c.run, a.intent.action, a.cost)], l.consumed + {ConsumeKey(c)},
              l.dispatched + {(c.run, a.intent.action)}), Dispatched)
  }

  // ---- over any sequence of attempts ----

  function After(t: Terms, attempts: seq<Attempt>): Ledger {
    if attempts == [] then UNUSED else Attempted(t, After(t, attempts[..|attempts| - 1]), attempts[|attempts| - 1]).0
  }

  predicate Succeeds(t: Terms, attempts: seq<Attempt>, i: nat)
    requires i < |attempts|
  {
    Attempted(t, After(t, attempts[..i]), attempts[i]).1 == Dispatched
  }

  /** The costs of the attempts for one run that were dispatched. */
  function Spent(t: Terms, attempts: seq<Attempt>, run: Id): nat {
    if attempts == [] then 0 else
      var n := |attempts| - 1;
      Spent(t, attempts[..n], run) +
      if Succeeds(t, attempts, n) && attempts[n].envelope.body.run == run then attempts[n].cost else 0
  }

  lemma {:induction false} LedgerGrows(t: Terms, attempts: seq<Attempt>, i: nat)
    requires i < |attempts| && Succeeds(t, attempts, i)
    ensures ConsumeKey(attempts[i].envelope.body) in After(t, attempts).consumed
    ensures (attempts[i].envelope.body.run, attempts[i].intent.action) in After(t, attempts).dispatched
    decreases |attempts|
  {
    var pre := attempts[..|attempts| - 1];
    if i < |pre| {
      assert pre[..i] == attempts[..i];
      LedgerGrows(t, pre, i);
    }
  }

  /** No two dispatches consume the same clearance, and none repeats an action of its run. */
  lemma DispatchOnce(t: Terms, attempts: seq<Attempt>, i: nat, j: nat)
    requires i < j < |attempts| && Succeeds(t, attempts, i) && Succeeds(t, attempts, j)
    ensures ConsumeKey(attempts[i].envelope.body) != ConsumeKey(attempts[j].envelope.body)
    ensures attempts[i].envelope.body.run == attempts[j].envelope.body.run ==>
              attempts[i].intent.action != attempts[j].intent.action
  {
    assert attempts[..j][..i] == attempts[..i];
    LedgerGrows(t, attempts[..j], i);
  }

  lemma OneAttempt(t: Terms, l: Ledger, a: Attempt, run: Id)
    ensures var (later, o) := Attempted(t, l, a);
            && ReservedFor(later.reservations, run)
               == ReservedFor(l.reservations, run) + (if o == Dispatched && a.envelope.body.run == run then a.cost
                                                      else 0)
            && (ReservedFor(l.reservations, run) <= t.cap ==> ReservedFor(later.reservations, run) <= t.cap)
  {
    hide Objection;
    var c := a.envelope.body;
    assert (l.reservations + [Reservation(c.run, a.intent.action, a.cost)])[..|l.reservations|] == l.reservations;
  }

  /** The ledger's rows of a run add up to what was dispatched for it, and stay within the cap. */
  lemma {:induction false} WithinCap(t: Terms, attempts: seq<Attempt>, run: Id)
    ensures Spent(t, attempts, run) == ReservedFor(After(t, attempts).reservations, run) <= t.cap
  {
    if attempts != [] {
      hide Attempted;
      var n := |attempts| - 1;
      WithinCap(t, attempts[..n], run);
      OneAttempt(t, After(t, attempts[..n]), attempts[n], run);
    }
  }

  // ---- when an attempt is dispatched ----

  /** The presented clearance is readable and signed, a GUARDED one of this tenant and runtime for this run and intent,
      in its lifetime, authorized, and of the revision the target still has. */
  predicate Presentable(t: Terms, a: Attempt) {
    var c := a.envelope.body;
    && a.readable && a.envelope.valid && a.tenant == t.tenant && c.runtime == t.runtime && c.mode == Guarded
    && c.run == a.run.id && c.guardEpoch == a.run.guardEpoch && c.boot == a.run.boot && c.policy == a.run.policy
    && c.intent == OfIntent(a.intent)
    && c.issuedMs <= a.at < c.expiresMs
    && a.authorized && a.targetRevision == a.intent.targetRevision
  }

  /** Both use the same clearance, or do the same action of the same run. */
  predicate Repeats(a: Attempt, b: Attempt) {
    var c, d := a.envelope.body, b.envelope.body;
    c.run == d.run && ((c.guardEpoch == d.guardEpoch && c.check == d.check) || a.intent.action == b.intent.action)
  }

  /** A dispatched attempt has done so before. */
  ghost predicate Used(t: Terms, attempts: seq<Attempt>, a: Attempt) {
    exists j | 0 <= j < |attempts| :: Succeeds(t, attempts, j) && Repeats(attempts[j], a)
  }

  lemma {:induction false} LedgerMeans(t: Terms, attempts: seq<Attempt>, a: Attempt)
    ensures var l, c := After(t, attempts), a.envelope.body;
            ConsumeKey(c) in l.consumed || (c.run, a.intent.action) in l.dispatched <==> Used(t, attempts, a)
  {
    if attempts != [] {
      var n := |attempts| - 1;
      LedgerMeans(t, attempts[..n], a);
      OneMoreUse(t, attempts, a);
      hide Objection;
    }
  }

  lemma OneMoreUse(t: Terms, attempts: seq<Attempt>, a: Attempt)
    requires attempts != []
    ensures var n := |attempts| - 1;
            Used(t, attempts, a) <==>
            Used(t, attempts[..n], a) || (Succeeds(t, attempts, n) && Repeats(attempts[n], a))
  {
    hide Attempted, After;
    var n := |attempts| - 1;
    forall j | 0 <= j < n ensures Succeeds(t, attempts[..n], j) == Succeeds(t, attempts, j) {
      assert attempts[..n][..j] == attempts[..j];
    }
    if Used(t, attempts[..n], a) {
      var j :| 0 <= j < n && Succeeds(t, attempts[..n], j) && Repeats(attempts[..n][j], a);
      assert Succeeds(t, attempts, j) && Repeats(attempts[j], a);
    }
    if Used(t, attempts, a) && !(Succeeds(t, attempts, n) && Repeats(attempts[n], a)) {
      var j :| 0 <= j < |attempts| && Succeeds(t, attempts, j) && Repeats(attempts[j], a);
      assert Succeeds(t, attempts[..n], j) && Repeats(attempts[..n][j], a);
    }
  }

  /** An attempt is dispatched exactly if its clearance may be presented so, neither the clearance nor the action was
      used before, and its cost fits under the cap together with what was dispatched for the run. */
  lemma DispatchesExactly(t: Terms, attempts: seq<Attempt>, i: nat)
    requires i < |attempts|
    ensures var a := attempts[i];
            Succeeds(t, attempts, i) <==>
              && Presentable(t, a) && !Used(t, attempts[..i], a)
              && Spent(t, attempts[..i], a.envelope.body.run) + a.cost <= t.cap
  {
    hide Used, After, Spent;
    LedgerMeans(t, attempts[..i], attempts[i]);
    WithinCap(t, attempts[..i], attempts[i].envelope.body.run);
  }
}
