/** What becomes of a check once its answers are in or its time is up: which of CLEAR, HELD, DENY, EXPIRED and STALE,
    for what reason, with what clearance or review. The order of the rules is the protocol's: an outdated check is
    STALE whatever was answered; past the deadline a missing answer is a timeout before any other answer counts; then a
    flag, then a missing or unavailable answer, then doubt, decide. */
module Outcomes {
  import opened Basics
  import opened Ids
  import opened Records
  import opened Store
  import opened Detect
  import opened Protocol
  import opened Timers
  import opened Safety
  import opened Invariants
  import opened Clearing
  import opened Effects
  import opened Admission

  type Board = map<Id, MonitorSlot>

  // ---- the answers ----

  /** An answer counts if it came and its slot's own deadline has not. */
  predicate Answered(s: MonitorSlot, now: nat) { s.state == Done && now < s.deadlineMs && s.result.Some? }

  /** The monitors whose answer counts and says v. */
  function Saying(slots: Board, now: nat, v: Verdict): set<Id> {
    set m | m in slots && Answered(slots[m], now) && slots[m].result.value.verdict == v
  }

  function Missing(slots: Board, now: nat): set<Id> { set m | m in slots && !Answered(slots[m], now) }

  function Unsettled(slots: Board, now: nat): set<Id> { Missing(slots, now) + Saying(slots, now, Unavailable) }

  /** The answers that count, in the order of `ids`. */
  function Answers(slots: Board, ids: seq<Id>, now: nat): seq<Result> {
    if ids == [] then [] else
      var m, rest := ids[0], Answers(slots, ids[1..], now);
      if m in slots && Answered(slots[m], now) then [slots[m].result.value] + rest else rest
  }

  /** The reason given by the first monitor that says v. */
  function ReasonOf(slots: Board, now: nat, v: Verdict): string
    requires Saying(slots, now, v) != {}
  {
    slots[Least(Saying(slots, now, v))].result.value.reason
  }

  lemma VectorAt(slots: Board, now: nat, i: nat)
    requires i < |SlotVector(slots, now)|
    ensures |SlotVector(slots, now)| == |Ascending(slots.Keys)| && Ascending(slots.Keys)[i] in slots
    ensures var s := slots[Ascending(slots.Keys)[i]];
            SlotVector(slots, now)[i] == if Answered(s, now) then s.result else None
  {
    assert Ascending(slots.Keys)[i] in Ascending(slots.Keys);
  }

  lemma PlaceOf(slots: Board, now: nat, m: Id) returns (i: nat)
    requires m in slots
    ensures i < |SlotVector(slots, now)| && i < |Ascending(slots.Keys)| && Ascending(slots.Keys)[i] == m
  {
    assert m in Ascending(slots.Keys);
    i :| 0 <= i < |Ascending(slots.Keys)| && Ascending(slots.Keys)[i] == m;
    SameLength(slots, now);
  }

  lemma SameLength(slots: Board, now: nat)
    ensures |SlotVector(slots, now)| == |Ascending(slots.Keys)|
  {}

  /** The first place of the vector where monitors of a set stand is that of the least of them. */
  lemma FirstIsLeast(slots: Board, ids: seq<Id>, s: set<Id>, i: nat)
    requires Sorted(ids) && i < |ids| && ids[i] in s && (forall m | m in s :: m in ids)
    requires forall j | 0 <= j < i :: ids[j] !in s
    ensures s != {} && Least(s) == ids[i]
  {
    forall m | m in s ensures m == ids[i] || Less(ids[i], m) {
      var j :| 0 <= j < |ids| && ids[j] == m;
    }
    assert IsLeast(ids[i], s);
    LeastUnique(s);
  }

  lemma FirstSaying(slots: Board, now: nat, v: Verdict)
    ensures var first := FirstWith(SlotVector(slots, now), v);
            if Saying(slots, now, v) == {} then first == None
            else first.Some? && first == slots[Least(Saying(slots, now, v))].result
  {
    hide SlotVector, FirstWith;
    var vec, ids, s := SlotVector(slots, now), Ascending(slots.Keys), Saying(slots, now, v);
    var first := FirstWith(vec, v);
    if s != {} {
      var i := PlaceOf(slots, now, Least(s));
      VectorAt(slots, now, i);
      assert Is(vec[i], v);
    }
    if first.Some? {
      var i :| 0 <= i < |vec| && vec[i] == first && first.value.verdict == v && forall j | 0 <= j < i :: !Is(vec[j], v);
      VectorAt(slots, now, i);
      assert ids[i] in s;
      forall j | 0 <= j < i ensures ids[j] !in s { VectorAt(slots, now, j); assert !Is(vec[j], v); }
      FirstIsLeast(slots, ids, s, i);
    }
  }

  lemma {:induction false} FirstUnsettledAt(vec: seq<Option<Result>>) returns (i: nat)
    requires FirstUnsettled(vec).Some?
    ensures i < |vec| && (vec[i].None? || vec[i].value.verdict == Unavailable)
    ensures FirstUnsettled(vec).value == if vec[i].None? then "MONITOR_TIMEOUT" else "MONITOR_UNAVAILABLE"
    ensures forall j | 0 <= j < i :: vec[j].Some? && vec[j].value.verdict != Unavailable
  {
    if vec[0].None? || vec[0].value.verdict == Unavailable {
      i := 0;
    } else {
      var k := FirstUnsettledAt(vec[1..]);
      i := k + 1;
      forall j | 0 <= j < i ensures vec[j].Some? && vec[j].value.verdict != Unavailable {
        if j > 0 { assert vec[j] == vec[1..][j - 1]; }
      }
    }
  }

  lemma FirstMissing(slots: Board, now: nat)
    ensures var first, s := FirstUnsettled(SlotVector(slots, now)), Unsettled(slots, now);
            if s == {} then first == None
            else first == Some(if Least(s) in Missing(slots, now) then "MONITOR_TIMEOUT" else "MONITOR_UNAVAILABLE")
  {
    hide SlotVector, FirstUnsettled, Unsettled, Missing, Ascending;
    var vec, ids, s := SlotVector(slots, now), Ascending(slots.Keys), Unsettled(slots, now);
    UnsettledMeans(vec);
    SameLength(slots, now);
    forall i | 0 <= i < |vec|
      ensures ids[i] in s <==> vec[i].None? || vec[i].value.verdict == Unavailable
      ensures ids[i] in Missing(slots, now) <==> vec[i].None?
    {
      VectorAt(slots, now, i);
      IsUnsettled(slots, now, ids[i]);
    }
    if s != {} {
      UnsettledHas(slots, now);
      var i := PlaceOf(slots, now, Least(s));
      assert ids[i] in s;
    }
    if FirstUnsettled(vec).Some? {
      var i := FirstUnsettledAt(vec);
      assert ids[i] in s;
      forall m | m in s ensures m in ids { UnsettledHas(slots, now); }
      FirstIsLeast(slots, ids, s, i);
    }
  }

  lemma IsUnsettled(slots: Board, now: nat, m: Id)
    requires m in slots
    ensures m in Missing(slots, now) <==> !Answered(slots[m], now)
    ensures m in Unsettled(slots, now) <==> !Answered(slots[m], now) || slots[m].result.value.verdict == Unavailable
  {}

  lemma UnsettledHas(slots: Board, now: nat)
    ensures forall m | m in Unsettled(slots, now) :: m in slots
  {}

  lemma NoneMissing(slots: Board, now: nat)
    ensures None in SlotVector(slots, now) <==> Missing(slots, now) != {}
  {
    hide SlotVector;
    var vec, ids := SlotVector(slots, now), Ascending(slots.Keys);
    if None in vec {
      var i :| 0 <= i < |vec| && vec[i] == None;
      VectorAt(slots, now, i);
      assert ids[i] in Missing(slots, now);
    }
    if Missing(slots, now) != {} {
      var i := PlaceOf(slots, now, Least(Missing(slots, now)));
      VectorAt(slots, now, i);
      assert vec[i] == None;
    }
  }

  lemma {:induction false} VectorAnswers(slots: Board, ids: seq<Id>, vec: seq<Option<Result>>, now: nat)
    requires |vec| == |ids|
    requires forall i | 0 <= i < |ids| ::
               ids[i] in slots && vec[i] == if Answered(slots[ids[i]], now) then slots[ids[i]].result else None
    ensures SettledResults(vec) == Answers(slots, ids, now)
    decreases |ids|
  {
    if ids != [] { VectorAnswers(slots, ids[1..], vec[1..], now); }
  }

  lemma AnswersAre(slots: Board, now: nat)
    ensures SettledResults(SlotVector(slots, now)) == Answers(slots, Ascending(slots.Keys), now)
  {
    hide SlotVector;
    var vec, ids := SlotVector(slots, now), Ascending(slots.Keys);
    SameLength(slots, now);
    forall i | 0 <= i < |ids|
      ensures ids[i] in slots && vec[i] == if Answered(slots[ids[i]], now) then slots[ids[i]].result else None
    {
      VectorAt(slots, now, i);
    }
    VectorAnswers(slots, ids, vec, now);
  }

  // ---- the facts a finalization looks at ----

  /** The observation no longer stands: it is too old, or a later one of its run differs in more than its window. */
  predicate Outdated(now: nat, o: Observation, os: seq<Observation>, freshness: nat) {
    || !Fresh(now, o.cutMs, freshness)
    || (|os| > o.pos
        && var last := os[|os| - 1];
           !(&& last.snapshot.scopes == o.snapshot.scopes && last.snapshot.replicas == o.snapshot.replicas
             && last.snapshot.targetRevision == o.snapshot.targetRevision
             && last.snapshot.committed == o.snapshot.committed && last.snapshot.reserved == o.snapshot.reserved
             && last.source == o.source && last.epoch == o.epoch && last.boot == o.boot))
  }

  /** What a review of this check would be about. */
  function BasisOf(c: Check, r: Run, o: Observation, answers: seq<Result>): Basis {
    Basis(r.id, OfIntent(c.intent), c.policy, r.guardEpoch, c.intent.targetRevision,
          SpendTotal(o.snapshot, c.intent.cost), OfFindings(Findings(answers)))
  }

  /** The review the check brought may pay for it: accepted, in time, and of exactly these findings. */
  predicate Pays(db: Db, now: nat, c: Check, r: Run, b: Basis) {
    && c.review.Some? && c.review.value in db.reviews
    && MayPay(db.reviews[c.review.value], now, r, c.intent, b.maxTotal)
    && db.reviews[c.review.value].basis.value.findings == b.findings
  }

  /** The active reviews, of one run or of all. */
  function Pending(reviews: map<Id, Review>, of: Option<set<Id>>): set<Id> {
    set id | id in reviews && Waits(reviews[id]) && Of(of, reviews[id].run)
  }

  /** The active reviews of the run with this basis. */
  function Standing(reviews: map<Id, Review>, run: Id, b: Basis): set<Id> {
    set id | id in reviews && Waits(reviews[id]) && reviews[id].run == run && reviews[id].basis == Some(b)
  }

  predicate QueueFull(reviews: map<Id, Review>, run: Id, p: Policy) {
    |Pending(reviews, None)| >= p.queueCapacity || |Pending(reviews, Some({run}))| >= p.perRunOpenReviews
  }

  lemma PendingAre(db: Db, run: Option<Id>)
    ensures |ActiveReviewIds(db, run)| == |Pending(db.reviews, Only(run))|
  {
    var ids := ActiveReviewIds(db, run);
    ActiveOnce(db, run);
    assert (set id | id in ids) == Pending(db.reviews, Only(run));
    AsMany(ids);
  }

  lemma StandingAre(db: Db, run: Id, b: Basis)
    ensures ActiveWithBasis(db, run, b) == Standing(db.reviews, run, b)
  {}

  lemma ConsumableIs(db: Db, now: nat, c: Check, r: Run, b: Basis)
    requires r.policy == c.policy
    ensures Consumable(db, now, c, r, b) == if Pays(db, now, c, r, b) then Some(db.reviews[c.review.value]) else None
  {}

  /** The rule: what the answers decide, given whether a review pays, one stands, or the queue is full. */
  lemma DecideIs(db: Db, now: nat, c: Check, r: Run, p: Policy, b: Basis, slots: Board)
    requires r.policy == c.policy
    ensures var flag, open, doubt := Saying(slots, now, Flag), Unsettled(slots, now), Saying(slots, now, Uncertain);
            Decide(db, now, c, r, p, b, SlotVector(slots, now)) ==
            if flag != {} then ODeny(ReasonOf(slots, now, Flag))
            else if open != {} then
              OExpired(if Least(open) in Missing(slots, now) then "MONITOR_TIMEOUT" else "MONITOR_UNAVAILABLE")
            else if doubt == {} then OClear
            else if Standing(db.reviews, r.id, b) == {} && QueueFull(db.reviews, r.id, p) then ODeny("QUEUE_FULL")
            else if Pays(db, now, c, r, b) then OClear
            else OHeld(ReasonOf(slots, now, Uncertain), Standing(db.reviews, r.id, b) == {})
  {
    hide SlotVector, FirstWith, FirstUnsettled, Consumable, Pays, ActiveWithBasis, Standing, Saying, Missing, Unsettled,
         ActiveReviewIds, Pending;
    FirstSaying(slots, now, Flag);
    FirstSaying(slots, now, Uncertain);
    FirstMissing(slots, now);
    PendingAre(db, None);
    PendingAre(db, Some(r.id));
    StandingAre(db, r.id, b);
    ConsumableIs(db, now, c, r, b);
    if Saying(slots, now, Flag) != {} { SayingHas(slots, now, Flag); }
    if Saying(slots, now, Uncertain) != {} { SayingHas(slots, now, Uncertain); }
  }

  /** A check that is only in doubt, and that brought a review that pays for it, clears exactly unless the queue is
      full and no active review has its basis. */
  lemma CoveredYetDenied(db: Db, now: nat, c: Check, r: Run, p: Policy, b: Basis, slots: Board)
    requires r.policy == c.policy && Pays(db, now, c, r, b)
    requires Saying(slots, now, Flag) == {} && Unsettled(slots, now) == {} && Saying(slots, now, Uncertain) != {}
    ensures var outcome, squeezed := Decide(db, now, c, r, p, b, SlotVector(slots, now)),
                                     QueueFull(db.reviews, r.id, p) && Standing(db.reviews, r.id, b) == {};
            && (outcome == OClear <==> !squeezed)
            && (outcome == ODeny("QUEUE_FULL") <==> squeezed)
  {
    hide Decide, Pays, QueueFull, Standing, Saying, Unsettled, Missing, SlotVector;
    DecideIs(db, now, c, r, p, b, slots);
  }

  lemma SayingHas(slots: Board, now: nat, v: Verdict)
    requires Saying(slots, now, v) != {}
    ensures Least(Saying(slots, now, v)) in slots && slots[Least(Saying(slots, now, v))].result.Some?
  {}

  // ---- what becomes of the check ----

  /** One check changes, and nothing else moves. */
  ghost predicate CheckBecomes(db: Db, d: Db, c: Check) {
    && KeepsRest(db, d) && d.runs == db.runs && d.reviews == db.reviews && d.checks == db.checks[c.id := c]
  }

  /** The check ends CLEAR with a clearance for its run's guard, from now until clearance time is over or the
      observation is no longer fresh; a review that pays is consumed with it. */
  ghost predicate Clears(db: Db, d: Db, now: nat, c: Check, r: Run, p: Policy, o: Observation, paid: Option<Review>,
                         b: Basis)
  {
    && KeepsRest(db, d) && d.runs == db.runs
    && d.reviews == (if paid.None? then db.reviews
                     else db.reviews[paid.value.id := paid.value.(state := Consumed,
                                                                  revision := paid.value.revision + 1)])
    && (paid.Some? ==> paid.value.basis.Some?)
    && d.checks == db.checks[c.id := c.(state := CClear, reason := "CLEAR", revision := c.revision + 1,
                                        clearance := Some(Clearance(
                                          r.id, r.runtime, r.guardEpoch, r.boot, c.id, OfIntent(c.intent), c.policy,
                                          c.observation, OfBasis(if paid.Some? then paid.value.basis.value else b),
                                          now, LifeEnds(now, p, o), r.mode)))]
  }

  /** The check is HELD and a review of its basis opens, due when the policy says. */
  ghost predicate Opens(db: Db, d: Db, now: nat, c: Check, r: Run, p: Policy, b: Basis, why: string) {
    var id := "wth_" + c.id;
    && KeepsRest(db, d) && d.runs == db.runs
    && d.checks == db.checks[c.id := c.(state := Held, reason := why, revision := c.revision + 1, review := Some(id))]
    && d.reviews == db.reviews[id := Review(id, 1, r.id, Some(c.id), Some(b), Blocking, ROpen, Warning, |db.audit| + 1,
                                            if now + p.reviewTtlMs > U64_MAX then U64_MAX else now + p.reviewTtlMs,
                                            None, None, None, None, why, None, None)]
  }

  /** How the check c of run r ends. */
  ghost predicate Concludes(db: Db, d: Db, now: nat, c: Check, r: Run, p: Policy, o: Observation, slots: Board) {
    var answers := Answers(slots, Ascending(slots.Keys), now);
    var ended := c.(revision := c.revision + 1);
    var k, e, b := c.(results := answers), ended.(results := answers), BasisOf(c, r, o, answers);
    var flag, open, doubt := Saying(slots, now, Flag), Unsettled(slots, now), Saying(slots, now, Uncertain);
    var standing, pays := Standing(db.reviews, r.id, b), Pays(db, now, c, r, b);
    if Outdated(now, o, ObservationsOf(db, r.id), p.freshnessMs)
    then CheckBecomes(db, d, ended.(state := Stale, reason := "STALE"))
    else if now >= c.deadlineMs && Missing(slots, now) != {}
    then CheckBecomes(db, d, ended.(state := CExpired, reason := "MONITOR_TIMEOUT"))
    else if flag != {} then CheckBecomes(db, d, e.(state := Deny, reason := ReasonOf(slots, now, Flag)))
    else if open != {} then
      CheckBecomes(db, d, e.(state := CExpired,
                             reason := if Least(open) in Missing(slots, now) then "MONITOR_TIMEOUT"
                                 else "MONITOR_UNAVAILABLE"))
    else if doubt != {} && standing == {} && QueueFull(db.reviews, r.id, p)
    then CheckBecomes(db, d, e.(state := Deny, reason := "QUEUE_FULL"))
    else if doubt == {} || pays
    then Clears(db, d, now, k, r, p, o, if pays && c.review.value in db.reviews then Some(db.reviews[c.review.value])
                                        else None, b)
    else if standing != {}
    then CheckBecomes(db, d, e.(state := Held, reason := ReasonOf(slots, now, Uncertain),
                                review := Some(Least(standing))))
    else Opens(db, d, now, k, r, p, b, ReasonOf(slots, now, Uncertain))
  }

  lemma PutCheckBecomes(db: Db, now: nat, c: Check)
    ensures CheckBecomes(db, Put(db, now, CheckFinalized, ACheck(c)), c)
  {
    hide Put;
    PutFrame(db, now, CheckFinalized, ACheck(c));
  }

  lemma LifeIs(now: nat, p: Policy, o: Observation)
    ensures Min(SatAdd(now, p.clearanceMs), SatAdd(o.cutMs, p.freshnessMs)) == LifeEnds(now, p, o)
  {}

  lemma ClearedClears(db: Db, now: nat, c: Check, r: Run, p: Policy, o: Observation, paid: Option<Review>, b: Basis)
    requires paid.Some? ==> paid.value.basis.Some?
    ensures Clears(db, Cleared(db, now, c, r, p, o, paid, b), now, c, r, p, o, paid, b)
  {
    hide Put, SatAdd, LifeEnds;
    LifeIs(now, p, o);
    var basis := OfBasis(if paid.Some? && paid.value.basis.Some? then paid.value.basis.value else b);
    var c2 := Finish(c, CClear, "CLEAR").(clearance := Some(NewClearance(now, c, r, p, o, basis)));
    PutFrame(db, now, CheckFinalized, ACheck(c2));
    if paid.Some? {
      var v := paid.value.(state := Consumed, revision := paid.value.revision + 1);
      PutFrame(db, now, ReviewConsumed, AReview(v));
      PutFrame(Put(db, now, ReviewConsumed, AReview(v)), now, CheckFinalized, ACheck(c2));
    }
  }

  lemma HeldOpens(db: Db, now: nat, c: Check, r: Run, p: Policy, b: Basis, why: string)
    ensures var v := NewReview(db, now, c, r, p, b, why);
            Opens(db, Put(Put(db, now, CheckFinalized, ACheck(Finish(c, Held, why).(review := Some(v.id)))), now,
                          ReviewOpened, AReview(v)), now, c, r, p, b, why)
  {
    hide Put;
    var v := NewReview(db, now, c, r, p, b, why);
    var c2 := Finish(c, Held, why).(review := Some(v.id));
    PutFrame(db, now, CheckFinalized, ACheck(c2));
    PutFrame(Put(db, now, CheckFinalized, ACheck(c2)), now, ReviewOpened, AReview(v));
  }

  lemma OutOfDateIs(db: Db, now: nat, c: Check, r: Run, p: Policy, o: Observation)
    requires r.state == Open && r.policy == c.policy && ByRef(db, c.observation) == Some(o)
    requires StreamOk(r, ObservationsOf(db, r.id))
    ensures OutOfDate(db, now, c, r, p) <==> Outdated(now, o, ObservationsOf(db, r.id), p.freshnessMs)
  {}

  lemma FinalizeConcludes(db: Db, now: nat, c: Check, r: Run, p: Policy, o: Observation)
    requires c.run in db.runs && db.runs[c.run] == r && r.id == c.run && r.state == Open && r.policy == c.policy
    requires PolicyOf(db, c.policy) == Some(p) && ByRef(db, c.observation) == Some(o)
    requires StreamOk(r, ObservationsOf(db, r.id))
    ensures Concludes(db, Finalize(db, now, c, SlotVector(SlotsOf(db, c.id), now)), now, c, r, p, o, SlotsOf(db, c.id))
  {
    hide Put, SlotVector, OutOfDate, Outdated, Decide, Consumable, Pays, Cleared, Clears, Opens, CheckBecomes, StreamOk,
         SettledResults, Answers, QueueFull, Saying, Missing, Unsettled, ActiveWithBasis, Standing, NewReview, PolicyIn,
         RefIn, SpendTotal, SlotsOf, ReasonOf, StreamIn;
    var slots := SlotsOf(db, c.id);
    var vec := SlotVector(slots, now);
    OutOfDateIs(db, now, c, r, p, o);
    NoneMissing(slots, now);
    AnswersAre(slots, now);
    var answers := SettledResults(vec);
    var b, k := CandidateBasis(c, r, o, answers), c.(results := answers);
    DecideIs(db, now, c, r, p, b, slots);
    StandingAre(db, r.id, b);
    ConsumableIs(db, now, c, r, b);
    forall x: Check ensures CheckBecomes(db, Put(db, now, CheckFinalized, ACheck(x)), x)
    {
      PutCheckBecomes(db, now, x);
    }
    if Pays(db, now, c, r, b) { PaysHasBasis(db, now, c, r, b); }
    var paid := Consumable(db, now, c, r, b);
    ClearedClears(db, now, k, r, p, o, paid, b);
    forall why: string
      ensures var v := NewReview(db, now, k, r, p, b, why);
              Opens(db, Put(Put(db, now, CheckFinalized, ACheck(Finish(k, Held, why).(review := Some(v.id)))), now,
                            ReviewOpened, AReview(v)), now, k, r, p, b, why)
    {
      HeldOpens(db, now, k, r, p, b, why);
    }
  }

  lemma PaysHasBasis(db: Db, now: nat, c: Check, r: Run, b: Basis)
    requires Pays(db, now, c, r, b)
    ensures c.review.Some? && c.review.value in db.reviews && db.reviews[c.review.value].basis.Some?
  {}

  /** Nothing more is waited for: every answer is in, timed out or too late, or the deadline of the check is over. */
  predicate Unawaited(slots: Board, now: nat, c: Check) {
    now >= c.deadlineMs
    || forall m | m in slots :: slots[m].state == Done || slots[m].state == Timeout || now >= slots[m].deadlineMs
  }

  function BoardOf(db: Db, id: Id): Board { if id in db.slots then db.slots[id] else map[] }

  /** In a state of the invariant an EVALUATING check is finalized as soon as nothing more is waited for, and not
      before; how it ends is settled by its run, its policy, its observation and the answers that count. */
  lemma MustConclude(db: Db, now: nat, id: Id)
    requires Inv(db)
    ensures var d := MaybeFinalize(db, now, id);
            if id in db.checks && db.checks[id].state == Evaluating
               && Unawaited(BoardOf(db, id), now, db.checks[id])
            then
              var c := db.checks[id];
              && c.run in db.runs && PolicyOf(db, c.policy).Some? && ByRef(db, c.observation).Some?
              && Concludes(db, d, now, c, db.runs[c.run], PolicyOf(db, c.policy).value,
                           ByRef(db, c.observation).value, BoardOf(db, id))
            else d == db
  {
    hide Inv, Concludes, Finalize, SlotVector, PolicyIn, RefIn;
    if id in db.checks && db.checks[id].state == Evaluating {
      var c := db.checks[id];
      EvaluatingStands(db, id);
      StreamIs(db, c.run);
      FinalizeConcludes(db, now, c, db.runs[c.run], PolicyOf(db, c.policy).value, ByRef(db, c.observation).value);
    }
  }

  lemma EvaluatingStands(db: Db, id: Id)
    requires Inv(db) && id in db.checks && db.checks[id].state == Evaluating
    ensures var c := db.checks[id];
            && c.id == id && c.run in db.runs && db.runs[c.run].state == Open && db.runs[c.run].policy == c.policy
            && PolicyOf(db, c.policy).Some? && ByRef(db, c.observation).Some?
  {
    hide Kept, PoliciesOk, RunsOk, StreamsOk, ReviewsOk, ClearsOk, SlotOk;
    Keyed(db);
    assert SlotsOk(db.policies, db.observations, db.slots, db.checks[id]) && EvaluatingOk(db.runs, db.checks[id]);
  }

  // ---- a check that must clear ----

  /** The observation and the intent are inside the policy's limits, and the cost needs no review. */
  predicate Inside(p: Policy, o: Observation, intent: Intent) {
    && (forall x | x in o.snapshot.scopes + intent.scopes :: x in p.allowedScopes)
    && o.snapshot.committed + o.snapshot.reserved + intent.cost <= p.cap && intent.cost < p.reviewAt
    && o.snapshot.replicas.Some? && o.snapshot.replicas.value <= p.maxReplicas
  }

  /** Each slot is that of a blocking required monitor that has answered in time. */
  ghost predicate AllIn(slots: Board, p: Policy, now: nat) {
    forall m | m in slots :: Answered(slots[m], now) && exists i | 0 <= i < |p.monitors| :: Blocks(p.monitors[i], m)
  }

  predicate Blocks(m: Monitor, id: Id) { m.id == id && m.mode == Blocking && m.required }

  /** If every answer is in and nothing is outside the policy's limits, the check clears. */
  lemma MustClear(db: Db, now: nat, id: Id, p: Policy, o: Observation)
    requires Inv(db) && id in db.checks && db.checks[id].state == Evaluating
    requires PolicyOf(db, db.checks[id].policy) == Some(p) && ByRef(db, db.checks[id].observation) == Some(o)
    requires AllIn(BoardOf(db, id), p, now) && Inside(p, o, db.checks[id].intent)
    requires !Outdated(now, o, ObservationsOf(db, db.checks[id].run), p.freshnessMs)
    ensures var k := MaybeFinalize(db, now, id).checks;
            && id in k && k[id].state == CClear && k[id].reason == "CLEAR"
            && k[id].clearance.Some? && k[id].clearance.value.issuedMs == now
            && k[id].clearance.value.expiresMs == LifeEnds(now, p, o)
  {
    hide Inv, Clears, Outdated, Pays, Standing, QueueFull, Inside, PolicyIn, RefIn, MaybeFinalize, Answers;
    var c, slots := db.checks[id], BoardOf(db, id);
    EvaluatingStands(db, id);
    var r := db.runs[c.run];
    forall m | m in slots ensures Answered(slots[m], now) && slots[m].result.value.verdict == Clear {
      AnswerIsClear(db, id, p, o, m, now);
    }
    assert Unawaited(slots, now, c);
    MustConclude(db, now, id);
    StreamIs(db, c.run);
    NothingSpeaksAgainst(slots, now);
    var answers := Answers(slots, Ascending(slots.Keys), now);
    var b := BasisOf(c, r, o, answers);
    if Pays(db, now, c, r, b) { PaysHasBasis(db, now, c, r, b); }
    var paid := if Pays(db, now, c, r, b) then Some(db.reviews[c.review.value]) else None;
    assert Clears(db, MaybeFinalize(db, now, id), now, c.(results := answers), r, p, o, paid, b);
    ClearsMeans(db, MaybeFinalize(db, now, id), now, c.(results := answers), r, p, o, paid, b);
  }

  lemma ClearsMeans(db: Db, d: Db, now: nat, c: Check, r: Run, p: Policy, o: Observation, paid: Option<Review>,
                    b: Basis)
    requires Clears(db, d, now, c, r, p, o, paid, b)
    ensures c.id in d.checks && d.checks[c.id].state == CClear && d.checks[c.id].reason == "CLEAR"
    ensures d.checks[c.id].clearance.Some? && d.checks[c.id].clearance.value.issuedMs == now
    ensures d.checks[c.id].clearance.value.expiresMs == LifeEnds(now, p, o)
  {}

  lemma NothingSpeaksAgainst(slots: Board, now: nat)
    requires forall m | m in slots :: Answered(slots[m], now) && slots[m].result.value.verdict == Clear
    ensures Saying(slots, now, Flag) == {} && Saying(slots, now, Uncertain) == {}
    ensures Missing(slots, now) == {} && Unsettled(slots, now) == {}
  {}

  lemma AnswerIsClear(db: Db, id: Id, p: Policy, o: Observation, m: Id, now: nat)
    requires Inv(db) && id in db.checks && m in BoardOf(db, id) && AllIn(BoardOf(db, id), p, now)
    requires PolicyOf(db, db.checks[id].policy) == Some(p) && ByRef(db, db.checks[id].observation) == Some(o)
    requires Inside(p, o, db.checks[id].intent)
    ensures BoardOf(db, id)[m].result.Some? && BoardOf(db, id)[m].result.value.verdict == Clear
  {
    hide Kept, RunsOk, StreamsOk, ReviewsOk, ClearsOk, EvaluatingOk, Expected, PolicyConstraints;
    Keyed(db);
    var c := db.checks[id];
    var i :| 0 <= i < |p.monitors| && Blocks(p.monitors[i], m);
    assert SlotsOk(db.policies, db.observations, db.slots, c);
    assert SlotOk(p.monitors[i], p, o, c, SlotsIn(db.slots, c.id));
    PolicyMeets(db.policies, c.policy, p);
    BlockingDetector(p, i);
    BlockingSays(p.monitors[i], p, o, c.observation, c.intent);
  }

  lemma BlockingDetector(p: Policy, i: nat)
    requires PolicyConstraints(p) && i < |p.monitors| && p.monitors[i].mode == Blocking
    ensures p.monitors[i].detector in {Scope, Spend, Replicas}
  {
    assert MonitorShape(p.monitors[i]);
  }

  // ---- replies ----

  /** A worker's reply to an EVALUATING check that still waits for it is stored: as a timeout past the slot's deadline,
      else as it is; if recomputation contradicts it the host faults instead. Any other reply changes nothing. */
  lemma MustStore(db: Db, host: HostState, epoch: nat, now: nat, k: Completion)
    ensures var (d, h, again) := StoreReply(db, host, epoch, now, k);
            var slots := BoardOf(db, k.check);
            if k.check in db.checks && db.checks[k.check].state == Evaluating && k.slotMonitor in slots
               && slots[k.slotMonitor].state != Done && (k.result.Some? || now >= slots[k.slotMonitor].deadlineMs)
            then
              var due, truth := slots[k.slotMonitor].deadlineMs, Recompute(db, db.checks[k.check], k.monitor);
              if now < due && truth.Some? && truth != k.result then
                && h == Faulted && !again && d.audit == db.audit + [NextEvent(db.audit, now, HostFaulted,
                                                                              AHost(Host(Faulted, epoch)))]
                && KeepsRest(db, d) && d.runs == db.runs && d.checks == db.checks && d.reviews == db.reviews
              else
                && h == host && again
                && d == db.(slots := db.slots[k.check := slots[k.monitor :=
                              if now >= due then MonitorSlot(due, Timeout, None)
                                  else MonitorSlot(due, Done, k.result)]])
            else d == db && h == host && !again
  {
    hide Put, Recompute, NextEvent;
    PutFrame(db, now, HostFaulted, AHost(Host(Faulted, epoch)));
  }
}
