/** The store (crates/watch/src/store.rs) and the audit emitter (crates/watch/src/events.rs):
    a hash-chained log, the projection tables that every event overwrites, and their history. */
module Store {
  import opened Basics
  import opened Ids
  import opened Records

  datatype HostState = Starting | Ready | Draining | Faulted
  datatype Host = Host(state: HostState, epoch: nat)

  datatype Kind =
    | HostStarted | HostReady | HostDraining | HostFaulted | PolicyActivated
    | RunOpened | RunPaused | RunResumed | RunClosed | RunQuarantined | ObservationAccepted
    | CheckStarted | CheckFinalized
    | TrailingEvaluated | DriftUpdated
    | ReviewOpened | ReviewClaimed | ReviewReleased | ReviewWoken | ReviewDeferred | ReviewAccepted
    | ReviewRejected | ReviewConsumed | ReviewClosed | ReviewExpired

  /** What an event is about: the whole new value of one entity. */
  datatype Subject =
    | AHost(host: Host)
    | APolicy(policy: Policy)
    | ARun(run: Run)
    | ACheck(check: Check)
    | AReview(review: Review)
    /** A window attempted for a run, and what the trailing monitors made of it. */
    | AWindow(ofRun: Id, startMs: nat, findings: seq<Result>)

  /** `Hash(e)` stands for the digest of e's body, which contains the hash before it. */
  datatype Link = Genesis | Hash(event: Event)
  datatype Event = Event(pos: nat, prev: Link, atMs: nat, kind: Kind, value: Subject)

  datatype Entity = Runs | Checks | Reviews
  datatype Row = Row(entity: Entity, id: Id, pos: nat, body: Subject)

  datatype SlotState = Pending | Done | Timeout
  datatype MonitorSlot = MonitorSlot(deadlineMs: nat, state: SlotState, result: Option<Result>)
  datatype Binding = Binding(intent: Digest, rejected: bool)

  /** The durable tables. `policies` is in generation order, `observations` in sequence order per run. */
  datatype Tables<Q, R> = Tables(
    audit: seq<Event>,
    history: seq<Row>,
    policies: seq<Policy>,
    runs: map<Id, Run>,
    observations: map<Id, seq<Observation>>,
    actions: map<(Id, Id), Binding>,
    checks: map<Id, Check>,
    slots: map<Id, map<Id, MonitorSlot>>,
    reviews: map<Id, Review>,
    windows: map<(Id, nat), Option<Bins>>,
    cursors: map<nat, Id>,
    outbox: set<(Id, Id)>,
    hostEpoch: nat,
    idempotency: map<(Id, Id), (Q, R)>)

  // ---- the log ----

  function HeadLink(audit: seq<Event>): Link {
    if audit == [] then Genesis else Hash(audit[|audit| - 1])
  }

  /** `emit`: the next event, linked to the head. */
  function NextEvent(audit: seq<Event>, now: nat, kind: Kind, value: Subject): Event {
    Event(|audit| + 1, HeadLink(audit), now, kind, value)
  }

  function RowOf(e: Event): seq<Row> {
    match e.value
    case ARun(r) => [Row(Runs, r.id, e.pos, e.value)]
    case ACheck(c) => [Row(Checks, c.id, e.pos, e.value)]
    case AReview(v) => [Row(Reviews, v.id, e.pos, e.value)]
    case _ => []
  }

  /** emit followed by `tx_put_entity`: log, projection table and history move together. */
  function Put<Q, R>(db: Tables<Q, R>, now: nat, kind: Kind, value: Subject): Tables<Q, R> {
    var e := NextEvent(db.audit, now, kind, value);
    var db1 := db.(audit := db.audit + [e], history := db.history + RowOf(e));
    match value
    case ARun(r) => db1.(runs := db.runs[r.id := r])
    case ACheck(c) => db1.(checks := db.checks[c.id := c])
    case AReview(v) => db1.(reviews := db.reviews[v.id := v])
    case _ => db1
  }

  /** What no event about a run, a check or a review changes. */
  ghost predicate KeepsRest<Q, R>(db: Tables<Q, R>, d: Tables<Q, R>) {
    && d.policies == db.policies && d.observations == db.observations && d.actions == db.actions
    && d.slots == db.slots && d.windows == db.windows && d.cursors == db.cursors && d.outbox == db.outbox
    && d.hostEpoch == db.hostEpoch && d.idempotency == db.idempotency
  }

  lemma PutFrame<Q, R>(db: Tables<Q, R>, now: nat, kind: Kind, value: Subject)
    ensures var d := Put(db, now, kind, value);
            && KeepsRest(db, d)
            && d.audit == db.audit + [NextEvent(db.audit, now, kind, value)]
            && d.runs == (if value.ARun? then db.runs[value.run.id := value.run] else db.runs)
            && d.checks == (if value.ACheck? then db.checks[value.check.id := value.check] else db.checks)
            && d.reviews == (if value.AReview? then db.reviews[value.review.id := value.review] else db.reviews)
  {
    hide RowOf, NextEvent;
  }

  /** Contiguous from 1, each event linked to the one before. */
  ghost predicate Chained(audit: seq<Event>) {
    forall i | 0 <= i < |audit| :: LinkedAt(audit, i)
  }

  ghost predicate LinkedAt(audit: seq<Event>, i: nat)
    requires i < |audit|
  {
    audit[i].pos == i + 1 && audit[i].prev == HeadLink(audit[..i])
  }

  // ---- replaying the log ----

  function RunsOf(audit: seq<Event>): (r: map<Id, Run>)
    ensures forall id | id in r :: r[id].id == id
  {
    if audit == [] then map[] else
      var m, e := RunsOf(audit[..|audit| - 1]), audit[|audit| - 1];
      if e.value.ARun? then m[e.value.run.id := e.value.run] else m
  }

  function ChecksOf(audit: seq<Event>): (r: map<Id, Check>)
    ensures forall id | id in r :: r[id].id == id
  {
    if audit == [] then map[] else
      var m, e := ChecksOf(audit[..|audit| - 1]), audit[|audit| - 1];
      if e.value.ACheck? then m[e.value.check.id := e.value.check] else m
  }

  function ReviewsOf(audit: seq<Event>): (r: map<Id, Review>)
    ensures forall id | id in r :: r[id].id == id
  {
    if audit == [] then map[] else
      var m, e := ReviewsOf(audit[..|audit| - 1]), audit[|audit| - 1];
      if e.value.AReview? then m[e.value.review.id := e.value.review] else m
  }

  function HistoryOf(audit: seq<Event>): seq<Row> {
    if audit == [] then [] else HistoryOf(audit[..|audit| - 1]) + RowOf(audit[|audit| - 1])
  }

  /** Every table that mirrors the log is exactly what replaying the log gives. */
  ghost predicate Mirrored<Q, R>(db: Tables<Q, R>) {
    && Chained(db.audit)
    && db.runs == RunsOf(db.audit)
    && db.checks == ChecksOf(db.audit)
    && db.reviews == ReviewsOf(db.audit)
    && db.history == HistoryOf(db.audit)
  }

  lemma ChainGrows(audit: seq<Event>, now: nat, kind: Kind, value: Subject)
    requires Chained(audit)
    ensures Chained(audit + [NextEvent(audit, now, kind, value)])
  {
    var r := audit + [NextEvent(audit, now, kind, value)];
    forall i | 0 <= i < |r| ensures LinkedAt(r, i) {
      if i < |audit| { assert LinkedAt(audit, i); assert r[..i] == audit[..i]; } else { assert r[..i] == audit; }
    }
  }

  lemma ReplayGrows(audit: seq<Event>, e: Event)
    ensures RunsOf(audit + [e]) == if e.value.ARun? then RunsOf(audit)[e.value.run.id := e.value.run] else RunsOf(audit)
    ensures ChecksOf(audit + [e])
            == if e.value.ACheck? then ChecksOf(audit)[e.value.check.id := e.value.check] else ChecksOf(audit)
    ensures ReviewsOf(audit + [e])
            == if e.value.AReview? then ReviewsOf(audit)[e.value.review.id := e.value.review] else ReviewsOf(audit)
    ensures HistoryOf(audit + [e]) == HistoryOf(audit) + RowOf(e)
  {
    assert (audit + [e])[..|audit|] == audit;
  }

  lemma PutMirrors<Q, R>(db: Tables<Q, R>, now: nat, kind: Kind, value: Subject)
    requires Mirrored(db)
    ensures Mirrored(Put(db, now, kind, value))
  {
    ChainGrows(db.audit, now, kind, value);
    ReplayGrows(db.audit, NextEvent(db.audit, now, kind, value));
  }

  /** A mirrored value is the subject of some event, and no later event is about the same entity. */
  lemma {:induction false} LastEventOfCheck(audit: seq<Event>, id: Id) returns (i: nat)
    requires id in ChecksOf(audit)
    ensures i < |audit| && audit[i].value == ACheck(ChecksOf(audit)[id]) && audit[i].value.check.id == id
    ensures forall j | i < j < |audit| :: !(audit[j].value.ACheck? && audit[j].value.check.id == id)
  {
    var n := |audit| - 1;
    if audit[n].value.ACheck? && audit[n].value.check.id == id {
      i := n;
    } else {
      i := LastEventOfCheck(audit[..n], id);
    }
  }

  lemma {:induction false} LastEventOfRun(audit: seq<Event>, id: Id) returns (i: nat)
    requires id in RunsOf(audit)
    ensures i < |audit| && audit[i].value == ARun(RunsOf(audit)[id]) && audit[i].value.run.id == id
    ensures forall j | i < j < |audit| :: !(audit[j].value.ARun? && audit[j].value.run.id == id)
  {
    var n := |audit| - 1;
    if audit[n].value.ARun? && audit[n].value.run.id == id {
      i := n;
    } else {
      i := LastEventOfRun(audit[..n], id);
    }
  }

  lemma {:induction false} LastEventOfReview(audit: seq<Event>, id: Id) returns (i: nat)
    requires id in ReviewsOf(audit)
    ensures i < |audit| && audit[i].value == AReview(ReviewsOf(audit)[id]) && audit[i].value.review.id == id
    ensures forall j | i < j < |audit| :: !(audit[j].value.AReview? && audit[j].value.review.id == id)
  {
    var n := |audit| - 1;
    if audit[n].value.AReview? && audit[n].value.review.id == id {
      i := n;
    } else {
      i := LastEventOfReview(audit[..n], id);
    }
  }
}
