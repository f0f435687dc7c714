# Watch, modelled in Dafny

Watch is a single-writer daemon. It admits signed observations of runs, evaluates checks on intended actions with blocking
monitors, queues doubtful checks for human review, issues signed clearances to a runtime guard, and commits every change to
a hash-chained audit log. This project models that protocol and the algorithms it stands on, and proves what they promise.

`dafny verify dfyconfig.toml` checks everything.

## How it is laid out

* **The protocol as a state machine.** `Records` and `Store` hold the data model: one value `Db` is all the durable tables.
  `Protocol` says what each request does to the tables, `Timers` what timers, finalization, monitor replies and restarts do,
  `System` puts them together: requests with their crash points, timers, replies, restarts and time, in any order.
* **The daemon as the program has it.** `TableStore.Database` (tables updated in place, with rollback) and `Daemon.Daemon`
  (fields, open transactions, entity loops) carry out those steps; every method is proved equal to its step (`LoopSteps` has
  one iteration of each entity loop).
* **What every step keeps.** `Safety`, `Invariants`, `Steps`, `Handlers`, `Intake`, `Clearing`, `TimersKeep` prove one
  invariant of every reachable state; `Guarantees`, `Latch`, `Fairness`, `Honest`, `Windows`, `Punctual`, `Prompt`,
  `Lifetimes`, `World` draw the conclusions over whole runs, the last one together with the guard (`DispatchGuard`).
  `Script` and `Witness` have concrete runs that show where promises end.
* **What every step must do.** `Effects`, `Admission`, `Reviewing`, `TimerEffects`, `Outcomes` say, request by request and
  timer by timer, exactly when it is taken, which rows change and to what, in terms that do not refer to the code that does
  it: states, reasons and bounds are spelled out, and every other row stays. `Obligations` carries this to every reachable
  state: who is let in, what is durable after each fate of a commit, when a run must halt, what a start must have put right.
* **The log and what is built on it.** `Queries` (cuts, lists, pages), `Bundle` and `Proofs` (export and offline verification).
* **Documents and numbers.** `Json`, `JsonParser`, `JsonProgram`; `JsonPieces`, `JsonCanonical`, `JsonLaws` (canonical text);
  `JsonGrammar`, `JsonReading` (the parser takes exactly the grammar); `Profile`; `Wide`, `Wilson`, `Interval`; `Tvd`,
  `DriftReducer`, `TokenBucket`, `Queue`, `Civil`. `Basics`, `Ids` and `Arith` are shared.

## Modelling decisions

* A digest `D(tag, x)` is the tagged value it commits to, so it is injective. A signature is a fact about an envelope: which
  key, if any, it verifies under. Signatures are not forged: `World.Possible` and `Honest.Delivers` say so where it matters.
* A transaction keeps the tables it started from. The idempotency row is a plain insert, so dispatching queued jobs inside
  `checks.create` under the same request id always rolls back (crates/watch/src/methods.rs:1347-1350).
* A start of the daemon is three transactions, and the process may die after each of them, or between any two steps; a store
  behind the minimum head given for that start is faulted and not served. A worker's reply is two transactions, and the
  process may die between them.
* Claim and resolve settle an overdue review before they look at its state, so an ended review may still become EXPIRED; what
  is proved is that a review that has left the active states never returns to them.
* Past the check deadline with a slot missing, EXPIRED is decided before aggregation, and a finished slot counts only before
  its own deadline, as in the code.
* An accepted review that covers a check turns its hold into a clearance, but no denial, and a full queue is a denial: if it
  is full and no active review has exactly the check's basis (the review accepted a larger total, say), the check is denied
  QUEUE_FULL although its review covers it (`Outcomes.CoveredYetDenied`; crates/watch/src/daemon.rs:1467-1520).
* The job string `job_<check>_<monitor>` does not always tell check and monitor apart; a reply therefore names the slot it
  resolved to and the monitor it answers for separately, and the invariant holds for every combination.
* The limb product of the audit arithmetic adds its middle terms with wrap-around, as an optimized build does;
  `Wide.MiddleFits` shows that no wrap happens below 2^127, hence never for denominators up to 4096.
* Positions in JSON texts count Unicode scalar values; byte lengths are sums of UTF-8 lengths. All structural characters are
  ASCII, so stepping by bytes or by scalars meets the same characters.

## Where the code and its promises differ

* Trailing monitors are meant to judge the windows that observations carry. But one row of the windows table says both that
  a window's counts arrived and that it was attempted (crates/watch/src/methods.rs:960-964, crates/watch/src/store.rs:687-697),
  so the window pass comes only to windows whose counts have not: `Windows.SuppliedIsNeverDue` and `Windows.NeverSupplied`
  show it for every run of the daemon. Hence no trailing monitor ever gives a verdict, every drift state stays WARMUP
  (`Windows.TrailingIsSilent`), and no alert and no trailing review is ever opened.
* A policy may give reviews a lifetime of zero. Then a review can be due at the very instant it is opened, after the tick's
  review timer has already run: in `Witness.ZeroLifetimeStaysDue` the tick that takes in the answers to a check holds it and
  leaves its review due. A tick leaves nothing due if every OPEN or PAUSED run's policy gives reviews a positive lifetime
  (`Lifetimes.LastingSuffices`), and exactly if none of its finalizations opens a hold under a lifetime of zero
  (`Lifetimes.TickDecides`). `Punctual.TickSettles` says which reviews are left due otherwise.
* The log grows without end, but no bundle of a cut past 4096 events can be handed out: the reply is read back under the
  parser's array bound and the request ends in AUDIT_UNAVAILABLE, or in BUNDLE_LIMIT if the reply is over 8 MiB.
  `Proofs.DeliveryMeans` says exactly when a bundle is handed out, and `Proofs.DeliveredVerifies` that what is handed out
  verifies. After 2049 starts of an otherwise unused daemon nothing is handed out, after 2048 a verifying bundle is
  (`Witness.LongLogIsRefused`).
* A claim of a review by name moves the queue cursor like a claim in turn, so a run can be served twice while another waits:
  `Witness.NamedClaimOvertakes` is such a run, with four held checks. `Fairness.Fair` holds as long as each successful claim
  by name at that level is of a run on the arc from the served run (inclusive) up to the waiting one; a claim off that arc
  puts the served run first again (`Fairness.Overtaken`). Without claims by name, of two runs that wait the one served first is
  decided by the cursor where their waiting began (`Fairness.FirstOfTwo`), however many others wait.

## Model

| member | source | states |
|---|---|---|
| `System.Always` | crates/watch/src/daemon.rs:722-945 | over every sequence of requests, crashes, retries, restarts, timers and replies from an empty store the invariant holds, and nothing committed (log, policies, observations, rejections, idempotency rows) is ever taken back |
| `Guarantees.Bindings` | crates/watch/src/daemon.rs:1041-1132 | in every reachable state an OPEN run is bound to the active policy, an EVALUATING check's run is OPEN under the same policy, an active review's run is OPEN or PAUSED, and no two active reviews share a basis |
| `Guarantees.Lifecycles` | crates/watch/src/methods.rs:591-763 | from any point of a run to any later one: terminal checks and CLOSED runs never change, QUARANTINED can only become CLOSED, a review that left the active states never returns, identities are never rebound |
| `Guarantees.NoFailOpen` | crates/watch/src/daemon.rs:1366-1537 | every CLEAR check was cleared by one event at which scopes, spend, replicas and freshness were within the policy, every required result was in time and equal to its recomputation, from the review threshold on a review of that exact basis was consumed by the event before, and the clearance names the guard of its run and lives exactly until clearance time is over or the observation is no longer fresh |
| `Guarantees.PaidByHolder` | crates/watch/src/methods.rs:1978-2130 | the review that paid for a clearance was accepted, while CLAIMED, by whoever held the claim |
| `Guarantees.OneReviewOneClearance` | crates/watch/src/daemon.rs:1683-1773 | no review ever pays for two clearances |
| `Guarantees.ExactlyOnce` | crates/watch/src/daemon.rs:748-831 | once a request changed anything durable, every later request under its principal and id changes nothing, is answered with the stored reply if it is the same and refused if it is not |
| `Guarantees.RejectionLatches` | crates/watch/src/store.rs:391-406 | what is marked rejected stays so over any run, and every check created for it is denied in the creating transaction |
| `Latch.RejectionIsFinal` | crates/watch/src/methods.rs:2079-2122 | over any run, if the log holds the rejection of a blocking review, the action of the check it was opened for is rejected in the state reached, and every check of that action of the run created after that event has been denied REVIEW_REJECTED |
| `Guarantees.KindsFit` | crates/watch/src/events.rs:26-103 | over any run, an event's kind is what its value shows: a review is rejected, accepted or consumed, a run quarantined or closed, a check finalized, exactly by an event of that kind |
| `Obligations.TurnedBack` | crates/watch/src/daemon.rs:722-786 | a request without the role, under a used key, to a host that does not serve it or over the rate changes nothing durable and is told the first of these that applies |
| `Obligations.Served` | crates/watch/src/daemon.rs:787-945 | any other request is answered by its handler; what the handler commits is durable together with the stored reply, or, if the log fails or the process dies before the commit, nothing is |
| `Obligations.MustHalt` | crates/watch/src/methods.rs:809-991 | over any run, a signed observation of the run's own source is acknowledged if it repeats an accepted one, quarantines the run (no check EVALUATING, no review active) if it is another one at or behind the cursor, names another past, takes back cut time or spend or tells other counts of a window, pauses the run if it leaves a gap, is refused without a trace if its cut lies ahead or its window cannot be, and otherwise joins the stream |
| `Obligations.RecoveredAtStart` | crates/watch/src/daemon.rs:243-478 | over any run, a start that commits its recovery leaves no run OPEN, no review active and no check EVALUATING: OPEN runs are PAUSED for RESTART, EVALUATING checks EXPIRED for RESTART, active reviews EXPIRED, every other row is as it was and the epoch is one higher; the host is READY exactly if the start is carried through |
| `Obligations.TimersAct` | crates/watch/src/daemon.rs:953-1321 | over any run, the four timers change exactly the runs and reviews whose time has come, to what they must become, and no other row |
| `Obligations.FirstCallIsAdmitted` | crates/watch/src/daemon.rs:833-850 | a principal that has not called since the start is not turned away for its rate |
| `Effects.DrainDoes` | crates/watch/src/methods.rs:276-343 | draining turns the host DRAINING in the log and in its state, expires every EVALUATING check for DRAIN, and moves nothing else |
| `Effects.ActivateWhen` | crates/watch/src/methods.rs:345-456 | a policy is activated exactly if it is sound, signed, of this tenant, built of installed monitors, and the next generation of the active one |
| `Effects.ActivateDoes` | crates/watch/src/methods.rs:345-456 | it is appended, every OPEN run pauses with its checks STALE and its reviews EXPIRED, and nothing else moves |
| `Effects.StartDoes` | crates/watch/src/methods.rs:458-579 | exactly when a run opens, fewer than 64 living ones included, and how: OPEN, at the start of its stream, nothing else moved |
| `Effects.PauseDoes` | crates/watch/src/methods.rs:591-764 | exactly who may pause which run, and that its checks go STALE and its reviews wait on |
| `Effects.CloseDoes` | crates/watch/src/methods.rs:591-764 | exactly who may close which run, and that its checks are CANCELLED and its reviews EXPIRED |
| `Admission.ResumeDoes` | crates/watch/src/methods.rs:591-764 | a run resumes exactly if an operator asks, it is PAUSED under the active policy and the last accepted observation is still fresh |
| `Admission.OutOfTurn` | crates/watch/src/methods.rs:809-860 | what lies at or behind the cursor is acknowledged exactly if it is in the accepted stream, else quarantines; past the next position the run pauses |
| `Admission.InTurn` | crates/watch/src/methods.rs:861-991 | at the next position: fork, future cut, rollback, impossible window, changed counts, in this order, or acceptance with the stream, window and cursor it leaves |
| `Admission.CreateWhen` | crates/watch/src/methods.rs:1081-1260 | exactly when a check is created, given the accepted observation it names: run, policy, freshness, target, action binding, covering review and the bounds of 128 and 16 |
| `Admission.CreateNeedsObservation` | crates/watch/src/methods.rs:1081-1260 | no check is created on a reference that names no accepted observation of its run |
| `Admission.CreateDoes` | crates/watch/src/methods.rs:1260-1352 | one pending slot and one job per blocking required monitor, the action bound to the intent, the check EVALUATING, or DENY at once if a rejection stands; nothing else moves |
| `Admission.CancelDoes` | crates/watch/src/methods.rs:1374-1438 | exactly who may cancel which check, and that nothing else moves |
| `Reviewing.ClaimDoes` | crates/watch/src/methods.rs:1787-1896 | an overdue review expires, an OPEN one or the caller's own is claimed until the lease or the due instant, any other is refused |
| `Reviewing.ClaimByName` | crates/watch/src/methods.rs:1787-1830 | a claim by name is about that review or refused |
| `Reviewing.ResolveDoes` | crates/watch/src/methods.rs:1978-2130 | past the due instant the review expires, past the lease it reopens, otherwise the holder's decision that fits it takes effect exactly as decided and a rejection marks the action; any other decision changes nothing |
| `Reviewing.ResolveNeeds` | crates/watch/src/methods.rs:1984-1996 | a decision on no review or on another revision is refused |
| `TimerEffects.SilenceDoes` | crates/watch/src/daemon.rs:975-1025 | exactly the OPEN runs whose source has been silent for its policy's freshness pause, with their checks STALE |
| `TimerEffects.DueDoes` | crates/watch/src/daemon.rs:1134-1199 | exactly the active reviews past their due instant, or past their acceptance, expire |
| `TimerEffects.LeaseDoes` | crates/watch/src/daemon.rs:1201-1260 | exactly the claimed reviews whose lease is over reopen, unless due |
| `TimerEffects.WakeDoes` | crates/watch/src/daemon.rs:1262-1321 | exactly the deferred reviews whose wake time has come reopen, unless due |
| `TimerEffects.RecoveredDoes` | crates/watch/src/daemon.rs:346-455 | what the recovery transaction does to every row |
| `Outcomes.MustConclude` | crates/watch/src/daemon.rs:1333-1800 | an EVALUATING check is finalized exactly when nothing more is waited for; STALE precedes the deadline rule, the deadline rule every answer, then flag, missing or unavailable, doubt decide; each outcome with its reason, results, review, clearance and lifetime, and no other row moved |
| `Outcomes.DecideIs` | crates/watch/src/daemon.rs:1452-1520 | what the answers decide, given whether a review pays, one of the same basis stands, or the queue is full |
| `Outcomes.CoveredYetDenied` | crates/watch/src/daemon.rs:1510-1520 | a doubtful check with a review that pays clears exactly unless the queue is full and no active review has its basis |
| `Outcomes.MustClear` | crates/watch/src/daemon.rs:1683-1800 | if all answers are in and observation and intent are inside the policy's limits, the check clears, with a clearance that lives until clearance time is over or the observation is no longer fresh |
| `Outcomes.MustStore` | crates/watch/src/daemon.rs:2512-2615 | exactly which replies are stored, as what, and that one that recomputation contradicts faults the host |
| `Detect.BlockingSays` | crates/watch/src/detect.rs:44-134 | verdict and reason of the three required detectors, in terms of scopes, spend and replicas |
| `Detect.FindingsMean` | crates/watch/src/aggregate.rs:78-94 | the findings of a basis are exactly the uncertain results, without their evidence |
| `Windows.PassRecords` | crates/watch/src/daemon.rs:1879-1904 | a pass over a living run puts every window it owes on record, up to 4097 of them, earliest first |
| `Windows.EveryTrailingAnswers` | crates/watch/src/daemon.rs:2025-2110 | the event of an attempt at a window carries one answer of each trailing monitor, in the order of their ids, each that the window is missing |
| `Windows.DueAreOwed` | crates/watch/src/daemon.rs:1879-1893 | what is counted as due is exactly the unrecorded ten-second windows over by half a second |
| `Windows.FirstIsBoundary` | crates/watch/src/daemon.rs:1862-1881 | a run's first window is the first ten-second boundary not before its opening |
| `Punctual.SleepIsSafe` | crates/watch/src/daemon.rs:2669-2700 | nothing falls due before the earliest instant `next_due` considers |
| `Guarantees.OutboxWaits` | crates/watch/src/methods.rs:1340-1352 | over any run, the jobs that `checks.create` hands out under its own idempotency key never leave the outbox: the run ends in the same state as if nothing had been handed out there |
| `System.DispatchKeeps` | crates/watch/src/daemon.rs:722-831 | a dispatched request, whatever befalls its commit, keeps the invariant and only extends what was committed |
| `System.RestartKeeps` | crates/watch/src/daemon.rs:243-478 | a start that dies after any number of its transactions, or is refused for a store behind the minimum head, keeps the invariant |
| `TimersKeep.RecoveredKeeps` | crates/watch/src/daemon.rs:346-455 | the recovery transaction keeps the invariant, which its parts only do together; `TimerEffects.RecoveredDoes` says what it does to every row |
| `Handlers.DrainKeeps` | crates/watch/src/methods.rs:276-343 | draining the host expires every evaluating check and keeps the invariant |
| `Handlers.ActivateKeeps` | crates/watch/src/methods.rs:345-456 | replacing the policy pauses every OPEN run with its checks and reviews, generations stay contiguous |
| `Handlers.StartKeeps` | crates/watch/src/methods.rs:458-579 | opening a run keeps the invariant |
| `Handlers.ControlKeeps` | crates/watch/src/methods.rs:591-764 | pause, resume and close keep the invariant, resume only under the active policy |
| `Handlers.CancelKeeps` | crates/watch/src/methods.rs:1374-1438 | cancelling finalizes an evaluating check once |
| `Handlers.ClaimKeeps` | crates/watch/src/methods.rs:1787-1896 | claiming, by name or in turn, keeps the invariant; an overdue review expires first |
| `Handlers.ResolveKeeps` | crates/watch/src/methods.rs:1978-2130 | accept, reject, annotate, release and defer are legal moves of the lease holder only |
| `Intake.ObserveKeeps` | crates/watch/src/methods.rs:766-991 | accepting, declining, pausing and quarantining keep accepted observations contiguous, linked, nondecreasing in cut time and spend, with the cursor at the last |
| `Intake.CreateKeeps` | crates/watch/src/methods.rs:1081-1352 | a check, its slots, its jobs and its action binding appear together, and a rejected action is denied at once |
| `Clearing.ClearedWithinLimits` | crates/watch/src/detect.rs:44-134 | a result vector that aggregates to CLEAR, or to a hold that a review lifts, implies every limit of the policy |
| `Clearing.MaybeFinalizeKeeps` | crates/watch/src/daemon.rs:1333-1537 | finalization keeps the invariant; it is the only step that clears a check |
| `Clearing.HoldKeeps` | crates/watch/src/daemon.rs:1597-1682 | a hold that needs a queue position opens exactly one review, of a basis no active review of the run has |
| `Guarantees.ResultsAreRecomputed` | crates/watch/src/daemon.rs:2512-2615 | in every reachable state a finished slot holds exactly what recomputation from the committed policy and observation gives, whatever workers answered |
| `TimersKeep.ReplyKeeps` | crates/watch/src/daemon.rs:2512-2615 | a worker's reply keeps the invariant and takes nothing committed back, as does its first transaction alone |
| `TimersKeep.ReviewTimersKeep` | crates/watch/src/daemon.rs:975-1321 | silence, due, lease and wake timers keep the invariant |
| `Safety.LifecyclesHold` | crates/watch/src/events.rs:26-103 | the lifecycles as a property of the log alone, from any cut to any later one |
| `Store.PutMirrors` | crates/watch/src/store.rs:199-263 | every write keeps log, projection tables and history in step: each stored run, check and review is the value in the last event about it |
| `Punctual.TickSettles` | crates/watch/src/daemon.rs:953-973 | after a tick no run is silent, no check is past its deadline, no lease or wake has passed, and an active review is due exactly if this tick opened it under a zero lifetime |
| `Prompt.NoneLeftRipe` | crates/watch/src/daemon.rs:953-973 | over any run, a check still EVALUATING after a tick has its deadline ahead and waits for a monitor that has not answered and still may |
| `Lifetimes.LastingSuffices` | crates/watch/src/daemon.rs:953-973 | no active review is due after a tick if every OPEN or PAUSED run's policy gives reviews a positive lifetime |
| `Lifetimes.TickDecides` | crates/watch/src/daemon.rs:953-973 | no active review is due after a tick if and only if none of its finalizations, where it is made, opens a review under a lifetime of zero |
| `Witness.ZeroLifetimeStaysDue` | crates/watch/src/daemon.rs:1597-1682 | a run from the cold state, under an activated policy with lifetime zero, in which a tick takes in the answers to a check, holds it and leaves its review due |
| `Punctual.NextDueIsLater` | crates/watch/src/daemon.rs:2669-2700 | with positive review lifetimes every non-outbox instant that `next_due` considers after a tick is later than now |
| `Fairness.Fair` | crates/watch/src/methods.rs:1740-1896 | over whole runs, while a run keeps an OPEN review at a level, and claims by name at that level stay on the arc from the served run up to it, no other run is served twice at that level without it being served in between |
| `Fairness.Overtaken` | crates/watch/src/methods.rs:1863-1888 | a claim by name off that arc turns the order around: the waiting run is not served before the other one is served again |
| `Fairness.FirstOfTwo` | crates/watch/src/methods.rs:1740-1785 | over whole runs without claims by name at a level, of two runs that wait there, among any others, the first to be served is the one whose arc the cursor was on when their waiting began, both ways |
| `Fairness.ArcDecides` | crates/watch/src/methods.rs:1760-1785 | with two runs waiting at a level, the one served next is decided by which arc the cursor is on, both ways |
| `Witness.NamedClaimOvertakes` | crates/watch/src/methods.rs:1863-1888 | a run from the cold state, with four held checks, in which one run is served twice while another keeps an OPEN review, because of a claim by name in between |
| `Fairness.ServedIsOldest` | crates/watch/src/methods.rs:1740-1785 | nothing graver than the review served is waiting (CRITICAL before WARNING before INFO), and it is the oldest of its run at its level |
| `Honest.NeverQuarantined` | crates/watch/src/methods.rs:809-991 | over any run, with any loss, repetition and reordering, the run of an honest source is never quarantined and its accepted log is a prefix of what the source wrote |
| `Windows.NeverSupplied` | crates/watch/src/daemon.rs:1876-2215 | over any run, when the window pass comes to a window, no accepted observation of the run carries it |
| `Windows.SuppliedIsNeverDue` | crates/watch/src/daemon.rs:1876-1904 | over any run, a window that an accepted observation carries is never due |
| `Windows.TrailingIsSilent` | crates/watch/src/daemon.rs:2025-2160 | over any run, every drift state is WARMUP and every answer of a trailing monitor in the log is UNAVAILABLE |
| `DispatchGuard.Guard.Dispatch` | crates/watch/src/guard.rs:54-192 | the guard's ledger and answer after an attempt, with everything an attempt can be refused for, in order |
| `DispatchGuard.Guard.Reserved` | crates/watch/src/guard.rs:160-168 | the reserved cost of a run is the sum over its rows |
| `DispatchGuard.DispatchOnce` | crates/watch/src/guard.rs:132-186 | two dispatches never consume the same clearance and never repeat an action of a run |
| `DispatchGuard.WithinCap` | crates/watch/src/guard.rs:160-181 | what was dispatched for a run equals what its rows reserve and never exceeds the cap |
| `DispatchGuard.DispatchesExactly` | crates/watch/src/guard.rs:54-192 | over any attempts, one is dispatched exactly if its clearance may be presented so, neither clearance nor action was used before, and its cost fits under the cap |
| `World.EveryDispatch` | crates/watch/src/guard.rs:77-131 | over any run of daemon and guard, each dispatch uses an issued GUARDED clearance that was earned, matches run and intent, and happens at issued <= t < expires <= cut + freshness |
| `World.MustDispatch` | crates/watch/src/guard.rs:54-192 | over any run of daemon and guard, the clearance of a cleared check presented as issued is dispatched exactly if its run is GUARDED and of this runtime, run, intent and target are the right ones, the attempt is authorized, the time is at or past the issue and before both clearance time and freshness run out, it was not used, and the cap allows |
| `World.DispatchesAreBounded` | crates/watch/src/guard.rs:132-192 | at most one dispatch per check and per (run, action), and no run's dispatches exceed the cap together |
| `TableStore.Database.Emit` | crates/watch/src/events.rs:26-103 | the appended event is the next in sequence and links to the head |
| `TableStore.Database.PutRun` | crates/watch/src/store.rs:199-263 | one event, one projection row overwritten, one history row |
| `TableStore.Database.InsertRow` | crates/watch/src/store.rs:462-477 | a second row under a key is refused and changes nothing |
| `Daemon.Daemon.DispatchRequest` | crates/watch/src/daemon.rs:722-831 | role, idempotency, readiness, rate, handler and commit, in this order, equal the system's dispatch step |
| `Daemon.Daemon.Commit` | crates/watch/src/daemon.rs:875-945 | work and idempotency row become durable together or the tables are as before, for every way the commit can go |
| `Daemon.Daemon.RateOk` | crates/watch/src/daemon.rs:833-850 | lazy refill, cap and withdrawal as the token bucket says |
| `Daemon.Daemon.Tick` | crates/watch/src/daemon.rs:953-973 | one pass over everything due is the fixed sequence of timer steps |
| `Daemon.Daemon.ProcessWindows` | crates/watch/src/daemon.rs:1876-1904 | the due windows of a run without a record are attempted in order in one transaction, up to 4097 of them |
| `Daemon.Daemon.AttemptWindow` | crates/watch/src/daemon.rs:1906-2215 | an attempt records the window, logs every trailing monitor's answer and steps the drift reducer |
| `Daemon.Daemon.Boot` | crates/watch/src/daemon.rs:243-478 | the start sequence equals the restart step at every point it may stop, a refusal before the first transaction included; `Obligations.RecoveredAtStart` says what that must do |
| `Daemon.Daemon.PolicyActivate` | crates/watch/src/methods.rs:345-456 | equals the activation step, with every refusal |
| `Daemon.Daemon.RunsControl` | crates/watch/src/methods.rs:591-764 | equals the control step, with every refusal |
| `Daemon.Daemon.ObservationsAppend` | crates/watch/src/methods.rs:766-991 | equals the observation step, of which `Obligations.MustHalt` says what it must do |
| `Daemon.Daemon.QuarantineRun` | crates/watch/src/methods.rs:1034-1079 | the run is quarantined, its checks go stale and its reviews expire |
| `Daemon.Daemon.ChecksCreate` | crates/watch/src/methods.rs:1081-1352 | equals the creation step, with every refusal |
| `Daemon.Daemon.ReviewsClaim` | crates/watch/src/methods.rs:1787-1896 | equals the claim step, by name or in turn |
| `Daemon.Daemon.ReviewsResolve` | crates/watch/src/methods.rs:1978-2130 | equals the resolve step, with every refusal; `Reviewing.ResolveDoes` and `Latch.RejectionIsFinal` say what that must do |
| `Daemon.Daemon.NextOpenReview` | crates/watch/src/methods.rs:1740-1785 | collecting the OPEN reviews in id order and picking equals the queue's choice |
| `Queue.Pick` | crates/watch/src/methods.rs:1760-1785 | filtering a level, sorting it and searching past the cursor finds the earliest review past the cursor, else the earliest |
| `Queue.SortPicksEarliest` | crates/watch/src/methods.rs:1770-1784 | the first element past the cursor of the stably sorted queue is the earliest such review of the unsorted one |
| `Daemon.Daemon.TickLeases` | crates/watch/src/daemon.rs:1201-1260 | the lease loop equals the lease timer step |
| `Daemon.Daemon.FinalizeCheck` | crates/watch/src/daemon.rs:1366-1537 | the final rechecks, the deadline rule and aggregation equal the finalization step, of which `Outcomes.MustConclude` says what it must do |
| `Daemon.Daemon.ApplyMonitorReply` | crates/watch/src/daemon.rs:2512-2615 | late, unusable, mismatching and good replies, as the reply step says |
| `Detect.AggregateMeans` | crates/watch/src/aggregate.rs:39-76 | exactly when a vector clears, is held, is denied with the first flag's reason, or expires |
| `Queries.EntityAt` | crates/watch/src/store.rs:281-300 | the value of a run, check or review at any cut is what replaying the log up to the cut gives |
| `Queries.ListAt` | crates/watch/src/store.rs:702-754 | one page of the list at a cut |
| `Queries.PagesShowTheCut` | crates/watch/src/store.rs:702-754 | following the pages shows each matching entity of the replayed prefix exactly once, with its value at the cut, in order of last change |
| `Queries.ListIsFixed` | crates/watch/src/store.rs:702-754 | a list at a cut is the same while the log grows, so pages fetched at different times fit together |
| `Queries.EventsPage` | crates/watch/src/store.rs:757-785 | one page of the log up to a cut |
| `Queries.PagesShowTheLog` | crates/watch/src/store.rs:757-785 | following the pages of the log gives it back up to the cut |
| `Bundle.Export` | crates/watch/src/bundle.rs:14-237 | the bundle at a cut: the events up to it, every policy, observation, effect and evaluation with its commitment, and its limitations; refused if a full one misses the input of an evaluation |
| `Bundle.BundleExport` | crates/watch/src/methods.rs:2337-2395 | the request: the cut, the evaluations' inputs, the size of the reply and the array bound, refused in this order |
| `Bundle.Verify` | crates/watch/src/verify.rs:60-326 | status, reasons and head of a bundle, part by part |
| `Bundle.WalkEvents` | crates/watch/src/verify.rs:117-191 | the chain walk: listed hash, position, link, signature, stopping at the first malformed envelope |
| `Proofs.VerdictMeans` | crates/watch/src/verify.rs:311-326 | FULL_REPLAY and INTEGRITY_ONLY are given to exactly the faultless bundles, the former to the full ones |
| `Proofs.ReasonsMean` | crates/watch/src/verify.rs:241-326 | FULL_REPLAY gives no reason, INTEGRITY_ONLY only OMITTED_BYTES, any other verdict some other reason |
| `Proofs.InvalidMeans` | crates/watch/src/verify.rs:60-326 | INVALID is given to exactly the bundles that contradict themselves or a pinned key, INCOMPLETE to exactly the others that are not faultless |
| `Proofs.FullReplayIsChain` | crates/watch/src/verify.rs:117-191 | FULL_REPLAY implies a contiguous linked chain from position 1 ending at the stated head |
| `Proofs.SameHeadSameHistory` | crates/watch/src/verify.rs:240-326 | two FULL_REPLAY bundles with the same head carry the same event bodies |
| `Proofs.ExportVerifies` | crates/watch/src/bundle.rs:14-237 | with covering live pins, an export of a reachable store, its effects and its evaluations at any cut verifies, FULL as FULL_REPLAY and COMMITMENTS as INTEGRITY_ONLY, if and only if the cut is at most 4096 |
| `Proofs.ExportTellsAll` | crates/watch/src/bundle.rs:14-237 | a bundle contains every event up to its cut and every policy, a full one every accepted observation, effect and evaluation and nothing else, the other kind none of them |
| `Proofs.InventoryListsAll` | crates/watch/src/bundle.rs:14-237 | the inventory lists every policy, observation, effect and evaluation, present or withheld |
| `Proofs.DeliveryMeans` | crates/watch/src/methods.rs:2337-2395 | a bundle is handed out exactly if its cut is in the log, no evaluation's input is missing from a full one, it fits into a reply, and neither its events nor its inventory is over 4096 entries |
| `Proofs.DeliveredVerifies` | crates/watch/src/methods.rs:2337-2395 | every bundle handed out is read back and verifies as FULL_REPLAY or INTEGRITY_ONLY, only that of an empty cut is INCOMPLETE |
| `Witness.LongLogIsRefused` | crates/watch/src/methods.rs:2337-2395 | after 2049 starts no bundle of the whole log is handed out, after 2048 one that fits is, and verifies |
| `JsonLaws.RoundTrip` | crates/watch/src/json.rs:190-547 | the canonical form of an accepted text is no longer, is accepted under the same limits, parses back to the same value in key order, and is a fixed point |
| `JsonLaws.SameTextSameValue` | crates/watch/src/json.rs:478-547 | two accepted values have the same canonical text exactly if they are equal up to the order of members |
| `JsonLaws.CanonInOrder` | crates/watch/src/json.rs:497-500 | canonical objects have their members in strictly increasing UTF-16 order |
| `JsonLaws.ParsedIsWellFormed` | crates/watch/src/json.rs:236-460 | whatever is accepted respects depth, member and array bounds, number syntax and unique keys |
| `JsonReading.ParsesTheGrammar` | crates/watch/src/json.rs:190-460 | a text is accepted with a value exactly if it is a document of the JSON grammar, within the limits and without repeated keys, that means this value |
| `JsonReading.SpellingsMean` | crates/watch/src/json.rs:303-389 | a string spelled in any way, scalar by scalar, reads as the text it spells |
| `JsonGrammar.SpellingReads` | crates/watch/src/json.rs:303-389 | every spelling of a scalar reads as that scalar: itself, the eight short escapes, four hex digits in either case, and the two UTF-16 units of one beyond U+FFFF |
| `JsonGrammar.ReadSpelling` | crates/watch/src/json.rs:303-389 | and nothing else reads as one |
| `JsonGrammar.ShortestSpelling` | crates/watch/src/json.rs:478-495 | the printer writes every scalar in its shortest spelling, with lower-case digits |
| `JsonGrammar.NumeralIsLexeme` | crates/watch/src/json.rs:262-301 | every number of the grammar is taken whole |
| `JsonGrammar.LexemeIsNumeral` | crates/watch/src/json.rs:262-301 | whatever is taken as a number is one of the grammar |
| `JsonCanonical.PrintedParses` | crates/watch/src/json.rs:236-460 | wherever the canonical text of a well-formed value stands, the parser reads its canonical form there and stops right after it |
| `JsonCanonical.Accepted` | crates/watch/src/json.rs:236-460 | a parsed value is well formed and its canonical text takes no more bytes than were read |
| `JsonPieces.StringBack` | crates/watch/src/json.rs:478-495 | an escaped string reads back as itself |
| `JsonPieces.NumberBack` | crates/watch/src/json.rs:262-301 | a number lexeme in a larger text reads back whole |
| `JsonProgram.ParseDocument` | crates/watch/src/json.rs:190-209 | the cursor parser equals the parsing function, error classes included, which takes exactly the grammar (`JsonReading.ParsesTheGrammar`) |
| `JsonProgram.Parser.String` | crates/watch/src/json.rs:303-389 | the string loop with its escapes and surrogate pairs, which reads every spelling (`JsonGrammar.SpellingReads`) and nothing else |
| `JsonProgram.Parser.Object` | crates/watch/src/json.rs:391-431 | the member loop with duplicate and bound checks |
| `JsonProgram.Output.JcsInto` | crates/watch/src/json.rs:510-547 | the printer appends exactly the canonical text |
| `JsonProgram.Jcs` | crates/watch/src/json.rs:504-508 | the text printed is exactly the canonical text of the value |
| `Profile.IntProfile` | crates/watch/src/json.rs:85-110 | a lexeme denotes n exactly if it is n's decimal spelling and n is within the bound |
| `Wide.Mul` | crates/watch/src/auditmath.rs:23-39 | the limb product is the exact 256-bit product of any two 128-bit numbers |
| `Wide.MulWide` | crates/watch/src/auditmath.rs:47-55 | product modulo 2^256, exact below it |
| `Wilson.CompareSquares` | crates/watch/src/auditmath.rs:131-141 | for denominators up to 4096 nothing saturates or wraps and the comparison is that of the squares |
| `Wilson.FloorMinus` | crates/watch/src/auditmath.rs:144-170 | from any starting estimate within 2^64 the search ends at the exact floor of R - U |
| `Wilson.FloorPlus` | crates/watch/src/auditmath.rs:173-200 | from any starting estimate within 2^64 the search ends at the exact floor of R + U |
| `Interval.WilsonEndpoints` | crates/watch/src/auditmath.rs:94-126 | both endpoints are exact, in order around num/den, and clipping changes nothing |
| `Interval.LowUnique` | crates/watch/src/auditmath.rs:94-126 | the lower endpoint is the only integer that meets its description |
| `Interval.HighUnique` | crates/watch/src/auditmath.rs:94-126 | the upper endpoint is the only integer that meets its description |
| `Interval.EndpointsAreRounded` | crates/watch/src/auditmath.rs:85-126 | the endpoints are 10^6 (center -+ half) rounded half up, with the real square root |
| `Interval.Sane` | crates/watch/src/auditmath.rs:94-126 | 0 <= low <= num/den <= high <= 1 in millionths, for every proportion |
| `Interval.LowIsZero` | crates/watch/src/auditmath.rs:94-126 | the lower endpoint is exactly 0 without successes |
| `Interval.HighIsMillion` | crates/watch/src/auditmath.rs:94-126 | the upper endpoint is exactly 1 without failures |
| `Interval.MirrorSum` | crates/watch/src/auditmath.rs:94-126 | low(den - num) + high(num) is one whole, or one millionth more exactly on a tie |
| `Tvd.TvdBp` | crates/watch/src/detect.rs:9-23 | the loop computes the score; the clamp never changes it |
| `Tvd.NoOverflow` | crates/watch/src/detect.rs:9-23 | for totals up to 2^56 every intermediate fits in 128 bits |
| `Tvd.Symmetric` | crates/watch/src/detect.rs:9-23 | the score is symmetric |
| `Tvd.ScaleInvariant` | crates/watch/src/detect.rs:9-23 | scaling either histogram leaves the score alone |
| `Tvd.Proportional` | crates/watch/src/detect.rs:9-23 | proportional histograms score 0 |
| `Tvd.Triangle` | crates/watch/src/detect.rs:9-23 | the triangle inequality holds within one basis point |
| `Tvd.FullScale` | crates/watch/src/detect.rs:9-23 | the score is 10000 exactly if no bin is used by both histograms |
| `Tvd.ScoreIsDistance` | crates/watch/src/detect.rs:9-23 | the score is the total variation distance of the two distributions, half the sum of the differences of the shares, in basis points, rounded down |
| `DriftReducer.Step` | crates/watch/src/drift.rs:34-125 | one slot's transition |
| `DriftReducer.Fold` | crates/watch/src/drift.rs:130-144 | folding is stepping through the list |
| `DriftReducer.ReducerMeetsReference` | crates/watch/src/drift.rs:34-125 | states and streaks are exactly the counts of consecutive windows since the last switch |
| `DriftReducer.LatestShows` | crates/watch/src/drift.rs:34-125 | outside drift the state is WARMUP exactly if the latest slot counts for nothing; score, data and last start are those of the latest slot |
| `DriftReducer.SwitchesNeedRuns` | crates/watch/src/drift.rs:34-125 | DRIFT is entered only on enough consecutive high windows and left only on enough low ones |
| `DriftReducer.EntriesAreRare` | crates/watch/src/drift.rs:34-125 | k entries in n windows need k high runs and k - 1 low runs |
| `DriftReducer.ReplaysChangeNothing` | crates/watch/src/drift.rs:34-48 | replayed and stale starts can be deleted from a history |
| `TokenBucket.RefillSplits` | crates/watch/src/daemon.rs:833-850 | the lazy refill equals refilling every millisecond with a cap |
| `TokenBucket.RateBound` | crates/watch/src/daemon.rs:833-850 | over any calls at nondecreasing times no more than 100 and one per 10 ms are admitted |
| `TokenBucket.BurstIsHundred` | crates/watch/src/daemon.rs:833-850 | of any number of calls at one instant on a fresh bucket exactly the first 100 are admitted |
| `TokenBucket.SpacedNeverRefused` | crates/watch/src/daemon.rs:833-850 | calls at least 10 ms apart are never refused |
| `Civil.CivilIsCounting` | crates/watch/src/bin/watchctl.rs:91-104 | the era arithmetic equals counting forward one Gregorian day at a time from 1970-01-01 |
| `Civil.DateDeterminesDay` | crates/watch/src/bin/watchctl.rs:91-104 | the date determines the day count |

## Left out

- Sockets, framing, threads, credentials, argument handling and printing: plumbing around the protocol.
- Ed25519, SHA-256, base64, XChaCha20 and the object store: replaced by the digest and signature model above.
- SQL text, write-ahead logging, backups, clocks, configuration loading, doctor and metrics: environment of the protocol.
- Daemon.Daemon.DispatchRequest: does not model the request schemas (`validate_params`), since requests arrive well formed, nor `effects.record`, the alert methods and audit evaluations, which take no part in clearing a check.
- Daemon.Daemon.AttemptWindow: has no branch for a window whose counts are there, nor alerts and their reviews, because `Windows.NeverSupplied` shows that branch is never taken.
- Daemon.Daemon.Boot: takes the checks of the signer's pins and of installed artifacts before the first transaction together as one refusal that changes nothing.
- TableStore.Database.Emit: leaves out an event's causes, actor and request fields and the re-validation of its schema before it is appended: they restrict nothing that is proved here.
- JsonProgram.ParseDocument: starts from Unicode scalar values, so a text that is not UTF-8 is not part of this model.
- Bundle.Export: does not sort the inventory by digest, since digests here have no text; the verifier only looks for repetitions and counts.
- Bundle.Verify: starts from a bundle whose fields have been separated.
- Bundle.BundleExport: leaves out the ExportRecorded event and the sealed copy of the bundle; the length of its canonical text is a parameter.
- The tenant of a clearance is what the envelope presented to the guard names; in the daemon one process serves one tenant.
- The fault injection hook that turns a good reply into a mismatch: a mismatching reply covers it.
- Audit evaluation counters, sampling and the rendering of fractions as text: only the arithmetic of the intervals is modelled.
- Findings are in monitor order already, because results are gathered in monitor order; the sort in `findings_digest` is not repeated.
- The id of a review: in the code a shortened digest of run, basis and origin check, here the origin check with a prefix, injective in the same way.
- Interval.WilsonEndpoints: states exactness for denominators up to 4096, the bound under which no product saturates, and estimates within 2^64.
- DispatchGuard.Guard.Dispatch: does not model failures of the guard's own database; its unique key on reservations never fires, since the dispatched table refuses the same key first.
- World.EveryDispatch: says nothing about the cost argument, because the guard does not compare it with the cost in the intent.
- Fairness.Fair: asks that no run has an empty id, which the schemas exclude, because an empty cursor means that nothing was served yet.
- EventsRead and list handlers beyond their store queries: they only wrap a page with its head.
