/** What every step of the daemon keeps, and what the log therefore shows over a whole run. */
module Safety {
  import opened Basics
  import opened Ids
  import opened Records
  import opened Store
  import opened Detect
  import opened Protocol
  import opened Timers

  // ---- lawful logs: what one event may say, given everything before it ----

  ghost predicate SameRunIdentity(a: Run, b: Run) {
    && a.id == b.id && a.source == b.source && a.sourceEpoch == b.sourceEpoch && a.runtime == b.runtime
    && a.guardEpoch == b.guardEpoch && a.boot == b.boot && a.mode == b.mode && a.policy == b.policy
  }

  /** CLOSED is final, QUARANTINED can only become CLOSED, and what a run is bound to never changes. */
  ghost predicate LegalRun(runs: map<Id, Run>, r: Run) {
    if r.id in runs then
      var prior := runs[r.id];
      && SameRunIdentity(prior, r) && r.revision == prior.revision + 1
      && prior.state != Closed && (prior.state == Quarantined ==> r.state == Closed)
    else r.state == Open && r.revision == 1
  }

  ghost predicate SameCheckIdentity(a: Check, b: Check) {
    && a.id == b.id && a.run == b.run && a.intent == b.intent && a.observation == b.observation
    && a.policy == b.policy && a.createdMs == b.createdMs && a.deadlineMs == b.deadlineMs
  }

  /** A check is started once and finalized once. */
  ghost predicate LegalCheck(checks: map<Id, Check>, c: Check) {
    if c.id in checks then
      var prior := checks[c.id];
      && SameCheckIdentity(prior, c) && prior.state == Evaluating && Terminal(c.state)
      && c.revision == prior.revision + 1
    else c.state == Evaluating && c.revision == 1
  }

  /** A review that has left the active states never returns to them, and never changes its basis. */
  ghost predicate LegalReview(reviews: map<Id, Review>, v: Review) {
    if v.id in reviews then
      var prior := reviews[v.id];
      && v.run == prior.run && v.basis == prior.basis && v.check == prior.check && v.kind == prior.kind
      && v.createdSeq == prior.createdSeq && v.dueMs == prior.dueMs && v.revision == prior.revision + 1
      && (Active(v.state) ==> Active(prior.state))
      && (v.state == Consumed ==> prior.state == Accepted)
      && (v.state in {Accepted, Rejected, RClosed} ==>
            prior.state == Claimed && prior.owner.Some? && v.resolvedBy == prior.owner)
    else v.state == ROpen && v.revision == 1
  }

  /** Trailing monitors never say anything of a window. */
  predicate AllUnavailable(findings: seq<Result>) {
    forall i | 0 <= i < |findings| :: findings[i].verdict == Unavailable
  }

  /** An event's kind says what its value shows. */
  predicate KindFits(kind: Kind, s: Subject) {
    match s
    case AHost(h) =>
      && (kind == HostStarted ==> h.state == Starting) && (kind == HostReady ==> h.state == Ready)
      && (kind == HostDraining ==> h.state == Draining) && (kind == HostFaulted ==> h.state == Faulted)
      && kind in {HostStarted, HostReady, HostDraining, HostFaulted}
    case APolicy(_) => kind == PolicyActivated
    case ARun(r) =>
      || (kind in {RunOpened, RunResumed} && r.state == Open) || (kind == RunPaused && r.state == Paused)
      || (kind == RunQuarantined && r.state == Quarantined) || (kind == RunClosed && r.state == Closed)
      || (kind in {ObservationAccepted, DriftUpdated} && r.state in {Open, Paused})
    case ACheck(c) => kind == if c.state == Evaluating then CheckStarted else CheckFinalized
    case AReview(v) => kind in ReviewKinds(v.state)
    case AWindow(_, _, _) => kind == TrailingEvaluated
  }

  /** The events that put a review into a state. */
  function ReviewKinds(s: ReviewState): set<Kind> {
    match s
    case ROpen => {ReviewOpened, ReviewReleased, ReviewWoken}
    case Claimed => {ReviewClaimed}
    case Deferred => {ReviewDeferred}
    case Accepted => {ReviewAccepted}
    case Consumed => {ReviewConsumed}
    case Rejected => {ReviewRejected}
    case RClosed => {ReviewClosed}
    case RExpired => {ReviewExpired}
  }

  /** A review is opened for a check of its run. */
  ghost predicate OpenedFor(checks: map<Id, Check>, v: Review) {
    v.check.Some? && v.check.value in checks && checks[v.check.value].run == v.run
  }

  ghost predicate LegalSubject(runs: map<Id, Run>, checks: map<Id, Check>, reviews: map<Id, Review>, s: Subject) {
    match s
    case ARun(r) => LegalRun(runs, r)
    case ACheck(c) => LegalCheck(checks, c)
    case AReview(v) => LegalReview(reviews, v) && (v.id in reviews || OpenedFor(checks, v))
    case AWindow(_, _, findings) => AllUnavailable(findings)
    case _ => true
  }

  ghost predicate LegalAt(audit: seq<Event>, n: nat)
    requires n < |audit|
  {
    && KindFits(audit[n].kind, audit[n].value)
    && LegalSubject(RunsOf(audit[..n]), ChecksOf(audit[..n]), ReviewsOf(audit[..n]), audit[n].value)
  }

  ghost predicate Lawful(audit: seq<Event>) {
    forall n | 0 <= n < |audit| :: LegalAt(audit, n)
  }

  ghost predicate Kept(db: Db) { Mirrored(db) && Lawful(db.audit) }

  lemma Keyed(db: Db)
    requires Kept(db)
    ensures forall id | id in db.runs :: db.runs[id].id == id
    ensures forall id | id in db.checks :: db.checks[id].id == id
    ensures forall id | id in db.reviews :: db.reviews[id].id == id
  {}

  lemma PutKeeps(db: Db, now: nat, kind: Kind, s: Subject)
    requires Kept(db) && LegalSubject(db.runs, db.checks, db.reviews, s) && KindFits(kind, s)
    ensures Kept(Put(db, now, kind, s))
    ensures Put(db, now, kind, s).audit == db.audit + [NextEvent(db.audit, now, kind, s)]
  {
    hide KindFits, LegalSubject, Lawful, Put, NextEvent, RowOf;
    PutMirrors(db, now, kind, s);
    PutFrame(db, now, kind, s);
    NextEventIs(db.audit, now, kind, s);
    LawfulGrows(db.audit, NextEvent(db.audit, now, kind, s));
  }

  lemma NextEventIs(audit: seq<Event>, now: nat, kind: Kind, s: Subject)
    ensures NextEvent(audit, now, kind, s).kind == kind && NextEvent(audit, now, kind, s).value == s
  {}

  lemma LawfulGrows(audit: seq<Event>, e: Event)
    requires Lawful(audit) && KindFits(e.kind, e.value)
    requires LegalSubject(RunsOf(audit), ChecksOf(audit), ReviewsOf(audit), e.value)
    ensures Lawful(audit + [e])
  {
    hide KindFits, LegalSubject;
    var r := audit + [e];
    forall n | 0 <= n < |r| ensures LegalAt(r, n) {
      if n < |audit| {
        assert LegalAt(audit, n);
        assert r[..n] == audit[..n];
      } else {
        assert r[..n] == audit;
      }
    }
  }

  lemma PrefixLawful(audit: seq<Event>, n: nat)
    requires Lawful(audit) && n <= |audit|
    ensures Lawful(audit[..n])
  {
    forall k | 0 <= k < n ensures LegalAt(audit[..n], k) {
      assert LegalAt(audit, k);
      assert audit[..n][..k] == audit[..k];
    }
  }

  // ---- what a lawful log means from one cut to a later one ----

  /** Terminal checks, closed runs, quarantined runs and inactive reviews, from any cut to any later one. */
  lemma {:induction false} LifecyclesHold(audit: seq<Event>, n: nat)
    requires Lawful(audit) && n <= |audit|
    ensures forall id | id in RunsOf(audit[..n]) :: id in RunsOf(audit)
              && SameRunIdentity(RunsOf(audit[..n])[id], RunsOf(audit)[id])
              && RunsOf(audit[..n])[id].revision <= RunsOf(audit)[id].revision
              && (RunsOf(audit[..n])[id].state == Closed ==> RunsOf(audit)[id] == RunsOf(audit[..n])[id])
              && (RunsOf(audit[..n])[id].state == Quarantined ==> RunsOf(audit)[id].state in {Quarantined, Closed})
    ensures forall id | id in ChecksOf(audit[..n]) :: id in ChecksOf(audit)
              && SameCheckIdentity(ChecksOf(audit[..n])[id], ChecksOf(audit)[id])
              && (Terminal(ChecksOf(audit[..n])[id].state) ==> ChecksOf(audit)[id] == ChecksOf(audit[..n])[id])
    ensures forall id | id in ReviewsOf(audit[..n]) :: id in ReviewsOf(audit)
              && ReviewsOf(audit)[id].basis == ReviewsOf(audit[..n])[id].basis
              && ReviewsOf(audit)[id].run == ReviewsOf(audit[..n])[id].run
              && ReviewsOf(audit)[id].check == ReviewsOf(audit[..n])[id].check
              && ReviewsOf(audit)[id].kind == ReviewsOf(audit[..n])[id].kind
              && (!Active(ReviewsOf(audit[..n])[id].state) ==> !Active(ReviewsOf(audit)[id].state))
    decreases |audit|
  {
    if n < |audit| {
      var m := |audit| - 1;
      PrefixLawful(audit, m);
      LifecyclesHold(audit[..m], n);
      assert audit[..m][..n] == audit[..n];
      assert LegalAt(audit, m);
      assert audit == audit[..m] + [audit[m]];
      ReplayGrows(audit[..m], audit[m]);
    } else {
      assert audit[..n] == audit;
    }
  }
}
