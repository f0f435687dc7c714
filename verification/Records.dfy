/** The records that policies, sources, runs, checks and reviews are made of.
    A digest D(tag, x) is modelled by the tagged value it commits to, so it is injective and
    separates tags by construction; nothing ever looks inside one. */
module Records {
  import opened Basics
  import opened Ids

  const U_MAX: int := 0x7FFF_FFFF_FFFF_FFFF
  const WINDOW_MS: nat := 10_000

  /** A wire counter: the schema admits 0 to 2^63-1. */
  type Counter = n: int | 0 <= n <= U_MAX
  type Bins = s: seq<Counter> | |s| == 4 witness [0, 0, 0, 0]

  /** u64 `saturating_add` and `saturating_sub`. */
  function SatAdd(a: nat, b: nat): nat { if a + b > U64_MAX then U64_MAX else a + b }
  function SatSub(a: nat, b: nat): nat { if a < b then 0 else a - b }
  function Min(a: int, b: int): int { if a < b then a else b }

  datatype Digest =
    | ZeroHash
    | OfPolicy(policy: Policy)
    | OfObservation(observation: Observation)
    | OfIntent(intent: Intent)
    | OfBasis(basis: Basis)
    | OfFindings(findings: seq<Finding>)

  datatype Head = Head(pos: nat, hash: Digest)
  const EMPTY_HEAD := Head(0, ZeroHash)

  datatype Ref = Ref(source: Id, epoch: Counter, pos: nat, hash: Digest)

  // ---- policies ----

  datatype Detector = Scope | Spend | Replicas | Rate | Distribution
  datatype Mode = Blocking | Trailing
  datatype Monitor = Monitor(id: Id, detector: Detector, mode: Mode, required: bool, artifact: Id, deadlineMs: Counter)

  datatype Policy = Policy(
    tenant: Id, id: Id, generation: Counter, predecessor: Option<Digest>, allowedScopes: seq<Id>,
    cap: Counter, reviewAt: Counter, maxReplicas: Counter, ratePerWindow: Counter, baseline: Bins,
    driftHighBp: Counter, driftLowBp: Counter, minWindowSamples: Counter,
    highWindows: Counter, lowWindows: Counter,
    freshnessMs: Counter, evaluationMs: Counter, clearanceMs: Counter,
    reviewTtlMs: Counter, reviewAcceptMs: Counter, claimLeaseMs: Counter,
    queueCapacity: Counter, perRunOpenReviews: Counter, monitors: seq<Monitor>)

  function Total(b: Bins): nat { b[0] as int + b[1] as int + b[2] as int + b[3] as int }

  /** Required detectors are blocking and required; the other two, if present, trailing and optional. */
  predicate MonitorShape(m: Monitor) {
    match m.detector
    case Rate => m.mode == Trailing && !m.required
    case Distribution => m.mode == Trailing && !m.required
    case _ => m.mode == Blocking && m.required
  }

  predicate PolicyConstraints(p: Policy) {
    && p.driftLowBp < p.driftHighBp <= 10_000
    && Total(p.baseline) != 0
    && p.minWindowSamples >= 100
    && p.highWindows == 2 && p.lowWindows == 3
    && 1 <= p.maxReplicas <= 64
    && 1 <= p.reviewAt <= p.cap
    && (forall i, j | 0 <= i < j < |p.monitors| ::
          p.monitors[i].id != p.monitors[j].id && p.monitors[i].detector != p.monitors[j].detector)
    && (forall i | 0 <= i < |p.monitors| :: MonitorShape(p.monitors[i]))
    && HasDetector(p, Scope) && HasDetector(p, Spend) && HasDetector(p, Replicas)
  }

  predicate HasDetector(p: Policy, d: Detector) {
    exists i | 0 <= i < |p.monitors| :: p.monitors[i].detector == d
  }

  /** The monitors a check waits for. */
  predicate Required(m: Monitor) { m.mode == Blocking && m.required }

  // ---- observations and intents ----

  datatype Window = Window(startMs: Counter, counts: Bins)
  datatype Snapshot = Snapshot(
    scopes: seq<Id>, replicas: Option<Counter>, targetRevision: Counter,
    committed: Counter, reserved: Counter, window: Option<Window>)
  datatype Observation = Observation(
    source: Id, epoch: Counter, boot: Id, run: Id, pos: Counter, prev: Digest, cutMs: Counter, snapshot: Snapshot)
  datatype Intent = Intent(action: Id, tool: Id, targetRevision: Counter, scopes: seq<Id>, cost: Counter)

  function RefOf(o: Observation): Ref { Ref(o.source, o.epoch, o.pos, OfObservation(o)) }

  /** committed + reserved + cost, as the daemon adds it. */
  function SpendTotal(s: Snapshot, cost: nat): nat { SatAdd(SatAdd(s.committed, s.reserved), cost) }

  // ---- monitor results ----

  datatype Verdict = Clear | Flag | Uncertain | Unavailable
  datatype Result = Result(
    monitor: Id, detector: Detector, verdict: Verdict, reason: string, score: Option<nat>, evidence: seq<Ref>)
  /** An uncertain result with its evidence removed. */
  datatype Finding = Finding(monitor: Id, detector: Detector, reason: string, score: Option<nat>)

  // ---- drift ----

  datatype DriftState = Warmup | Stable | Suspect | Drifting
  datatype WindowData = DataMissing | DataInsufficient | DataComplete
  datatype Drift = Drift(
    state: DriftState, highStreak: nat, lowStreak: nat, lastWindowMs: Option<nat>, scoreBp: Option<nat>,
    data: WindowData)

  /** The drift state a run opens with. */
  const FRESH := Drift(Warmup, 0, 0, None, None, DataMissing)

  // ---- runs, checks, reviews, clearances ----

  datatype RunState = Open | Paused | Quarantined | Closed
  datatype GuardMode = Guarded | Shadow
  datatype Run = Run(
    id: Id, revision: nat, source: Id, sourceEpoch: Counter, runtime: Id, guardEpoch: Counter, boot: Id,
    mode: GuardMode, profile: Id, state: RunState, policy: Digest, cursor: Head,
    lastCutMs: Option<Counter>, lastReceivedMs: Option<Counter>, drift: Drift, pauseReason: Option<string>)

  datatype CheckState = Evaluating | CClear | Deny | Held | CExpired | Stale | Cancelled
  datatype Check = Check(
    id: Id, revision: nat, run: Id, intent: Intent, observation: Ref, policy: Digest, state: CheckState,
    createdMs: Counter, deadlineMs: nat, results: seq<Result>, review: Option<Id>,
    clearance: Option<Clearance>, reason: string)

  datatype Clearance = Clearance(
    run: Id, runtime: Id, guardEpoch: Counter, boot: Id, check: Id, intent: Digest, policy: Digest,
    observation: Ref, basis: Digest, issuedMs: nat, expiresMs: nat, mode: GuardMode)

  datatype Basis = Basis(
    run: Id, intent: Digest, policy: Digest, guardEpoch: Counter, targetRevision: Counter, maxTotal: nat,
    findings: Digest)

  datatype ReviewState = ROpen | Claimed | Deferred | Accepted | Consumed | Rejected | RClosed | RExpired
  datatype Level = Info | Warning | Critical
  datatype Review = Review(
    id: Id, revision: nat, run: Id, check: Option<Id>, basis: Option<Basis>, kind: Mode, state: ReviewState,
    level: Level, createdSeq: nat, dueMs: nat, owner: Option<Id>, leaseUntilMs: Option<nat>,
    wakeMs: Option<nat>, acceptedUntilMs: Option<nat>, reason: string,
    resolution: Option<string>, resolvedBy: Option<Id>)

  /** The states that occupy a queue slot. */
  predicate Active(s: ReviewState) { s in {ROpen, Claimed, Deferred, Accepted} }

  predicate Terminal(s: CheckState) { s != Evaluating }
}
