/** The five pinned detectors (crates/watch/src/detect.rs) and the blocking aggregation over their
    results (crates/watch/src/aggregate.rs). */
module Detect {
  import opened Basics
  import opened Ids
  import opened Records
  import D = DriftReducer
  import Tvd

  predicate Within(scopes: seq<Id>, allowed: seq<Id>) {
    forall i | 0 <= i < |scopes| :: scopes[i] in allowed
  }

  /** One detector against one observation; the intent is present for blocking checks only. */
  function Evaluate(m: Monitor, p: Policy, o: Observation, ref: Option<Ref>, intent: Option<Intent>,
                    drift: Option<Drift>): Result
  {
    var res := (v: Verdict, reason: string, score: Option<nat>) =>
      Result(m.id, m.detector, v, reason, score, if ref.Some? then [ref.value] else []);
    var s := o.snapshot;
    match m.detector
    case Scope =>
      if Within(s.scopes, p.allowedScopes) && (intent.Some? ==> Within(intent.value.scopes, p.allowedScopes))
      then res(Clear, "SCOPE_OK", None) else res(Flag, "SCOPE_DRIFT", None)
    case Spend =>
      var cost := if intent.Some? then intent.value.cost else 0;
      if SpendTotal(s, cost) > p.cap then res(Flag, "SPEND_CAP", None)
      else if cost >= p.reviewAt then res(Uncertain, "LARGE_ACTION", None)
      else res(Clear, "SPEND_OK", None)
    case Replicas =>
      if s.replicas.None? then res(Unavailable, "REPLICA_UNKNOWN", None)
      else if s.replicas.value > p.maxReplicas then res(Flag, "REPLICATION_DRIFT", None)
      else res(Clear, "REPLICAS_OK", None)
    case Rate =>
      if s.window.None? then res(Unavailable, "WINDOW_MISSING", None)
      else if Total(s.window.value.counts) > p.ratePerWindow then res(Flag, "RATE_SPIKE", None)
      else res(Clear, "RATE_OK", None)
    case Distribution =>
      if s.window.None? then res(Unavailable, "WINDOW_MISSING", None)
      else
        var w := s.window.value;
        if Total(w.counts) < p.minWindowSamples then res(Unavailable, "BASELINE_WARMUP", None)
        else
          var tvd := Tvd.Score(p.baseline, w.counts);
          var score := if tvd.Some? then Min(tvd.value, 10_000) else 0;
          var prior := if drift.Some? then drift.value else FRESH.(data := DataInsufficient);
          match D.Next(prior, D.Slot(w.startMs, D.Supplied(Total(w.counts), score)), p).state
          case Drifting => res(Flag, "DISTRIBUTION_DRIFT", Some(score))
          case Suspect => res(Uncertain, "DISTRIBUTION_SUSPECT", Some(score))
          case _ => res(Clear, "DISTRIBUTION_OK", Some(score))
  }

  /** What the daemon recomputes for a slot of a blocking check. */
  function Expected(m: Monitor, p: Policy, o: Observation, ref: Ref, intent: Intent): Result {
    Evaluate(m, p, o, Some(ref), Some(intent), None)
  }

  /** The required detectors: scopes within those allowed, spend with this action within the cap and below the review
      threshold, replicas known and within their number. */
  lemma BlockingSays(m: Monitor, p: Policy, o: Observation, ref: Ref, intent: Intent)
    ensures var r, s := Expected(m, p, o, ref, intent), o.snapshot;
            && r.monitor == m.id && r.detector == m.detector && r.evidence == [ref]
            && (m.detector == Scope ==>
                  var fine := forall x | x in s.scopes + intent.scopes :: x in p.allowedScopes;
                  r.verdict == (if fine then Clear else Flag)
                      && r.reason == (if fine then "SCOPE_OK" else "SCOPE_DRIFT"))
            && (m.detector == Spend ==>
                  if s.committed + s.reserved + intent.cost > p.cap then r.verdict == Flag && r.reason == "SPEND_CAP"
                  else if intent.cost >= p.reviewAt then r.verdict == Uncertain && r.reason == "LARGE_ACTION"
                  else r.verdict == Clear && r.reason == "SPEND_OK")
            && (m.detector == Replicas ==>
                  match s.replicas
                  case None => r.verdict == Unavailable && r.reason == "REPLICA_UNKNOWN"
                  case Some(n) =>
                    if n > p.maxReplicas then r.verdict == Flag && r.reason == "REPLICATION_DRIFT"
                    else r.verdict == Clear && r.reason == "REPLICAS_OK")
            && (m.detector != Distribution ==> r.score == None)
  {
    var s := o.snapshot;
    WithinBoth(s.scopes, intent.scopes, p.allowedScopes);
  }

  lemma WithinBoth(a: seq<Id>, b: seq<Id>, allowed: seq<Id>)
    ensures Within(a, allowed) && Within(b, allowed) <==> forall x | x in a + b :: x in allowed
  {
    if forall x | x in a + b :: x in allowed {
      forall i | 0 <= i < |a| ensures a[i] in allowed { assert a[i] in a + b; }
      forall i | 0 <= i < |b| ensures b[i] in allowed { assert b[i] in a + b; }
    }
  }

  // ---- aggregation ----

  datatype Outcome =
    | OClear
    | ODeny(reason: string)
    | OHeld(reason: string, newReview: bool)
    | OExpired(reason: string)

  datatype QueueCtx = QueueCtx(depth: nat, perRunOpen: nat, queueCapacity: nat, perRunCap: nat, existingBasis: bool)

  predicate Is(slot: Option<Result>, v: Verdict) { slot.Some? && slot.value.verdict == v }

  /** The first settled result with verdict v. */
  function FirstWith(slots: seq<Option<Result>>, v: Verdict): (r: Option<Result>)
    ensures r.None? <==> forall i | 0 <= i < |slots| :: !Is(slots[i], v)
    ensures r.Some? ==> exists i | 0 <= i < |slots| ::
                          slots[i] == r && r.value.verdict == v && forall j | 0 <= j < i :: !Is(slots[j], v)
  {
    if slots == [] then None
    else if Is(slots[0], v) then slots[0]
    else
      var r := FirstWith(slots[1..], v);
      assert forall i | 0 < i < |slots| :: slots[i] == slots[1..][i - 1];
      assert r.Some? ==> exists i | 0 <= i < |slots| ::
                slots[i] == r && r.value.verdict == v && forall j | 0 <= j < i :: !Is(slots[j], v) by {
        if r.Some? {
          var i :| 0 <= i < |slots[1..]| && slots[1..][i] == r && r.value.verdict == v
                   && forall j | 0 <= j < i :: !Is(slots[1..][j], v);
          assert slots[i + 1] == r;
          forall j | 0 <= j < i + 1 ensures !Is(slots[j], v) {
            if j > 0 { assert slots[j] == slots[1..][j - 1]; }
          }
        }
      }
      r
  }

  /** The reason of the first slot that is missing or unavailable. */
  function FirstUnsettled(slots: seq<Option<Result>>): Option<string> {
    if slots == [] then None
    else if slots[0].None? then Some("MONITOR_TIMEOUT")
    else if slots[0].value.verdict == Unavailable then Some("MONITOR_UNAVAILABLE")
    else FirstUnsettled(slots[1..])
  }

  /** Hard flag first, then unsettled, then uncertain, then clear. */
  function Aggregate(slots: seq<Option<Result>>, q: QueueCtx): Outcome {
    var flag, unsettled, uncertain := FirstWith(slots, Flag), FirstUnsettled(slots), FirstWith(slots, Uncertain);
    if flag.Some? then ODeny(flag.value.reason)
    else if unsettled.Some? then OExpired(unsettled.value)
    else if uncertain.Some? then
      if q.existingBasis then OHeld(uncertain.value.reason, false)
      else if q.depth >= q.queueCapacity || q.perRunOpen >= q.perRunCap then ODeny("QUEUE_FULL")
      else OHeld(uncertain.value.reason, true)
    else OClear
  }

  lemma {:induction false} UnsettledMeans(slots: seq<Option<Result>>)
    ensures FirstUnsettled(slots).None? <==>
              forall i | 0 <= i < |slots| :: slots[i].Some? && slots[i].value.verdict != Unavailable
  {
    if slots != [] {
      UnsettledMeans(slots[1..]);
      assert forall i | 0 < i < |slots| :: slots[i] == slots[1..][i - 1];
    }
  }

  /** A check clears by itself exactly when every required result is in and clear; it is held exactly when all are in,
      none is a flag or unavailable, some is uncertain, and the queue can take or already holds it; a flag denies it
      with the first flag's reason; it expires exactly when nothing is flagged and something is missing or
      unavailable. */
  lemma AggregateMeans(slots: seq<Option<Result>>, q: QueueCtx)
    ensures Aggregate(slots, q) == OClear <==> forall i | 0 <= i < |slots| :: Is(slots[i], Clear)
    ensures Aggregate(slots, q).OHeld? <==>
              && (forall i | 0 <= i < |slots| :: Is(slots[i], Clear) || Is(slots[i], Uncertain))
              && (exists i | 0 <= i < |slots| :: Is(slots[i], Uncertain))
              && (q.existingBasis || (q.depth < q.queueCapacity && q.perRunOpen < q.perRunCap))
    ensures Aggregate(slots, q).OHeld? ==> Aggregate(slots, q).newReview == !q.existingBasis
    ensures (exists i | 0 <= i < |slots| :: Is(slots[i], Flag)) ==>
              exists i | 0 <= i < |slots| ::
                Aggregate(slots, q) == ODeny(if Is(slots[i], Flag) then slots[i].value.reason else "")
                && Is(slots[i], Flag) && forall j | 0 <= j < i :: !Is(slots[j], Flag)
    ensures Aggregate(slots, q).OExpired? <==>
              && (forall i | 0 <= i < |slots| :: !Is(slots[i], Flag))
              && (exists i | 0 <= i < |slots| :: slots[i].None? || Is(slots[i], Unavailable))
  {
    UnsettledMeans(slots);
    var flag, uncertain := FirstWith(slots, Flag), FirstWith(slots, Uncertain);
    forall i | 0 <= i < |slots| && slots[i].Some?
      ensures Is(slots[i], Clear) || Is(slots[i], Flag) || Is(slots[i], Uncertain) || Is(slots[i], Unavailable)
    {}
  }

  /** The uncertain results, in monitor order, with their evidence removed. */
  function Findings(results: seq<Result>): seq<Finding> {
    if results == [] then []
    else
      var r, rest := results[0], Findings(results[1..]);
      if r.verdict == Uncertain then [Finding(r.monitor, r.detector, r.reason, r.score)] + rest else rest
  }

  /** A finding is an uncertain result without its evidence, and every uncertain result is one. */
  lemma {:induction false} FindingsMean(results: seq<Result>, f: Finding)
    ensures f in Findings(results) <==>
              exists r :: r in results && r.verdict == Uncertain && f.monitor == r.monitor && f.detector == r.detector
                          && f.reason == r.reason && f.score == r.score
  {
    if results != [] {
      FindingsMean(results[1..], f);
      assert results == [results[0]] + results[1..];
    }
  }
}
