# SOSE durability kernel: a verified model

SOSE is a simulation kernel whose truth lives in a transactional store. Workers,
backend queues and leases are ephemeral and may die between any two
transactions. This project models the protocols that make that safe, and the
algorithms it relies on, and proves what holds over every run.

A transaction is one atomic step. A crash discards every ephemeral field. Where
a process runs a loop, it is a method with a `life`: the number of transactions
it still commits before it is killed. The services are classes whose methods
update the record tables; each is tied to a function or relation over store
values, and the guarantees are lemmas about those over runs of any length.

| files | what they cover |
|---|---|
| `BoundaryModel`, `BoundaryProtocol`, `BoundaryService` | boundary messages, leases, acknowledgements, certificates; the transactions |
| `BoundaryCausation`, `BoundaryInvariants`, `BoundaryTheorems`, `BoundaryExactness`, `BoundaryRuns` | the cause graph, the invariant, safety and deadlock freedom; when each transaction succeeds and what it writes, read off the records; one run spelled out |
| `BoundaryAudit`, `Cycles` | the two auditors against the writer, and the two cycle detectors |
| `RecoveryBudget`, `RecoveryRunner` | the work budget of a recurring recovery occurrence |
| `JobRunner` | ticks and batches of a recurring job: which trigger each committed tick was for |
| `DurableStores`, `DurableStoreManager` | the durable FIFO store |
| `Preemption`, `PreemptionManager` | durable preemptive resources |
| `Containers` | durable containers |
| `DomainStore`, `DomainFacade` | warehouse, outbox, entity view, unit of work |
| `Encoding` | the encoding behind deterministic identities |
| `PullRequestFlow`, `WipSweep` | multi-server review flow, and the work-in-progress sweep |

Assumptions: identities derived by `deterministic_id` are constructors over their
arguments (UUID version 5, section 5.5 of RFC 9562, taken as injective). Events
are append-only and entity versions never decrease. One live writer holds a job.
Backend callbacks arrive in the order of their grants; for preemptive resources
not even that is assumed. Times are integers or reals, quantities reals, clocks
and random draws parameters.

Where code and intent part, the code is kept and the exact condition proved:

- The writer admits a typed parent with an equal timestamp or not yet published,
  the auditor refuses both (`AuditExact`, `EqualTimestampsReached`).
- A claim of a typed child wants the certified entity still in its terminal
  state, the auditor only at the certified version. One such child whose entity
  moved on makes every claim that looks at it raise, and nothing else does
  (`ClaimRaisesExactly`, `MovingOnReached`).
- Uncertified intents retire without a certificate, so a resume raises once one
  was executed (`LostExactly`).
- A resumed batch may report a start tick one too high (`StartTick`).
- A batch skips its first child if that was the last completed trigger, and
  between its last child and its closing takes one child more than was asked for;
  it advances exactly the children requested if and only if neither happened
  (`RunTrigger`, `OverrunBatch`).
- A direct tick that failed and was paused and resumed loses its claim. If its
  advance was committed, the next trigger takes it over and completes without
  one of its own, or, once it was noted, the advance is abandoned. A trigger is
  advanced exactly once if and only if it abandoned as many advances as it took
  over (`RunTick`, `ExactlyOnce`, `PauseLosesATick`).
- Plain puts do not look at consumed ids (`PlainPutNeedsFreshIds`).
- A number is given out again once its item was consumed by an older get: the
  next number is fresh if and only if it is above the numbers of all receipts'
  items (`NumberIsFresh`, `NumberIsFreshInFamily`, `SequencesAreReused`).
- Mapping keys that encode alike, such as two NaNs, let insertion order reach the
  bytes (`MappingsEncodeAlike`, `NanKeysKeepOrder`).
- A release the backend refused, followed by a preemption of its owner, leaves
  records a rebuild refuses (`RefusedReleaseStrandsRebuild`, `ValidRebuildExact`), and
  the preemption callbacks commute only where the grant could not have been
  made outright (`HandshakeConfluence`).

## Model

| member | source | states |
|---|---|---|
| `BoundaryServices.BoundaryService.ValidateCausation` | src/sose/composition/boundary.py:336-367 | the ancestor walk as a loop over cursor, kind and visited; it returns the fault of the recursive walk, or none, and ends on every store |
| `BoundaryServices.BoundaryService.ValidateExistingDescendants` | src/sose/composition/boundary.py:370-383 | true exactly when no durable child of the message differs in correlation, precedes it in time or is already consumed |
| `BoundaryServices.BoundaryService.PublishMessage` | src/sose/composition/boundary.py:125-173 | the whole new store: message, pending delivery and job charge appear together, a known message changes nothing, a refusal changes nothing |
| `BoundaryServices.BoundaryService.SelectCandidate` | src/sose/composition/boundary.py:216-256 | raises exactly when a considered delivery is broken; otherwise finds the ready delivery that is least by production time and then identity, or shows there is none |
| `BoundaryServices.BoundaryService.ClaimNext` | src/sose/composition/boundary.py:183-271 | one lease on that delivery with attempts and epoch raised by one and nothing else changed, or no change |
| `BoundaryServices.BoundaryService.ConsumeDelivery` | src/sose/composition/boundary.py:273-333 | the whole new store of the acknowledgement: Command, receipt and delivery change together, or nothing does |
| `BoundaryServices.BoundaryService.CompleteEffect` | src/sose/composition/effects.py:100-183 | the whole new store of a certification: the certificate is saved and its Command deleted together, or nothing changes |
| `BoundaryServices.CompleteIsIdempotent` | src/sose/composition/effects.py:100-115 | completing twice returns the first certificate and changes nothing |
| `BoundaryServices.RepublishIsIdempotent` | src/sose/composition/boundary.py:138-173 | publishing a stored message again returns its delivery, charges nothing and changes nothing |
| `BoundaryExactness.PublicationExactly` | src/sose/composition/boundary.py:125-173 | at every point of every run a new message is published if and only if its event is stored in its correlation and not later, or its known parent is in its correlation, not later and not behind the message itself, and no stored child is in another correlation, earlier or consumed |
| `BoundaryExactness.EventMessageExactly` | src/sose/composition/boundary.py:347-355 | an event-caused message without stored children is published if and only if its event is stored, has its correlation and did not occur after it was produced |
| `BoundaryExactness.PublishWrites` | src/sose/composition/boundary.py:138-173 | the message, a pending delivery with an empty history, and one more publication on the job it is charged to |
| `BoundaryExactness.AuditLinkExactly` | src/sose/composition/audit.py:88-120 | the condition of the auditor on one link, for each kind of cause, in terms of events and messages |
| `BoundaryExactness.CandidateExactly` | src/sose/composition/boundary.py:216-256 | a delivery may be leased if and only if it is pending or its lease expired, it matches the filter, and its predecessor is consumed, executed and, where a typed child waits on a certificate, still in the certified state |
| `BoundaryExactness.ClaimExactly` | src/sose/composition/boundary.py:183-271 | at every point of every run a claim that does not raise leases the first such delivery by production time and identity, with owner, window, attempts and epoch written out, and nothing exactly when there is none |
| `BoundaryExactness.LiveLeaseIsExclusive` | src/sose/composition/boundary.py:227-232 | over any run a delivery is leased again only at or after the expiry of its earlier lease, whatever happened in between |
| `BoundaryExactness.ConsumeExactly` | src/sose/composition/boundary.py:273-333 | an open delivery is acknowledged if and only if the lease is its current one and live, its predecessor is done and its message has a handler |
| `BoundaryExactness.ConsumeWrites` | src/sose/composition/boundary.py:307-333 | the Command of that handler, due when the message was produced, the receipt and the consumed delivery, and nothing else |
| `BoundaryExactness.ResolveExactly` | src/sose/composition/boundary.py:81-107 | the handler registered for the producer serves; a general one only where no producer has one of its own |
| `BoundaryExactness.CompleteExactly` | src/sose/composition/effects.py:100-183 | a pending Command is certified if and only if message, contract and target agree with the row of its intent, the entity is in the terminal state and an invoice has its open receivable of equal amount and currency |
| `BoundaryExactness.CompleteWrites` | src/sose/composition/effects.py:130-183 | the certificate of that entity at its version, and the Command gone |
| `BoundaryExactness.AuditCatchesReceipts` | src/sose/composition/audit.py:60-199 | on any store, reachable or not, what the auditor accepts has one delivery per message and a matching receipt with exactly the records a certified contract needs |
| `BoundaryExactness.AuditCatchesCertificates` | src/sose/composition/audit.py:122-199 | and every certificate belongs to an acknowledged effect, with its message, correlation and target, and its entity not behind it |
| `BoundaryExactness.ObserverIsSound` | src/sose/composition/boundary_observation.py:185-236 | on any store, a record of a selected message without stray fields is accepted by the observer if and only if it is a sound one |
| `BoundaryExactness.ObserverCatchesStrays` | src/sose/composition/boundary_observation.py:116-160 | on any store, no record that mentions a selected message or carries an identity derived from one belongs to another |
| `BoundaryCausation.PublishKeepsAcyclic` | src/sose/composition/boundary.py:336-367 | a message whose ancestor walk does not raise cannot close a causal cycle, even when it is published after its children |
| `BoundaryCausation.PublishKeepsCausation` | src/sose/composition/boundary.py:336-383 | publishing keeps the cause graph acyclic with equal correlation and nondecreasing time along every known edge |
| `BoundaryCausation.StoredCausationHolds` | src/sose/composition/boundary.py:300-306 | for every stored message the ancestor walk succeeds, so it never raises inside a claim or an acknowledgement |
| `BoundaryCausation.AncestorsPrecede` | src/sose/composition/boundary.py:336-367 | every known ancestor, at any distance, has the same correlation and an earlier or equal time and is not the message itself |
| `BoundaryInvariants.PublishKeepsInv` | src/sose/composition/boundary.py:125-173 | publishing keeps fencing, pairing, causation, effects and causal closure |
| `BoundaryInvariants.ClaimKeepsInv` | src/sose/composition/boundary.py:257-271 | a new lease keeps them and fences the previous one |
| `BoundaryInvariants.ConsumeKeepsInv` | src/sose/composition/boundary.py:273-333 | an acknowledgement keeps them |
| `BoundaryInvariants.CompleteKeepsInv` | src/sose/composition/effects.py:100-183 | a certification keeps them |
| `BoundaryInvariants.RetireKeepsInv` | src/sose/composition/trading_company_customer.py:1048-1052 | retiring an uncertified Command keeps them |
| `BoundaryInvariants.NextKeepsInv` | src/sose/composition/boundary.py:125-333 | any transaction of any worker keeps the invariant and only adds evidence |
| `BoundaryInvariants.ReachableInv` | src/sose/composition/boundary.py:125-333 | the invariant holds at every point of every run |
| `BoundaryInvariants.EvidenceIsPermanent` | src/sose/composition/boundary.py:125-333 | messages, receipts, certificates, events and consumed deliveries of one point of a run are unchanged at every later point, and epochs never fall |
| `BoundaryTheorems.HandlerCommitsOnce` | src/sose/composition/boundary.py:273-333 | over any run a delivery is acknowledged by at most one transaction |
| `BoundaryTheorems.ConsumedIsTerminal` | src/sose/composition/boundary.py:273-298 | a consumed delivery never changes again |
| `BoundaryTheorems.ConsumedIffAcknowledged` | src/sose/composition/boundary.py:316-333 | a delivery is consumed exactly when one matching receipt exists, and no other receipt names its message |
| `BoundaryTheorems.SupersededLeaseIsInert` | src/sose/composition/boundary.py:440-468 | a lease whose epoch was superseded changes nothing, now or at any later point |
| `BoundaryTheorems.LaterClaimSupersedes` | src/sose/composition/boundary.py:257-271 | of two claims of one delivery the later carries the higher epoch |
| `BoundaryTheorems.CausalSafety` | src/sose/composition/boundary.py:386-411 | at every point of every run the consumed set is closed under known ancestors at any distance, each with equal correlation, an earlier or equal time and another identity |
| `BoundaryTheorems.ConsumedAncestors` | src/sose/composition/boundary.py:386-411 | the consumed set is closed under known ancestors at any distance |
| `BoundaryTheorems.TypedParentConsumedFirst` | src/sose/composition/boundary.py:386-411 | a typed parent is consumed before its child even if it was published after it |
| `BoundaryTheorems.NoOvertaking` | src/sose/composition/boundary.py:300-306 | at the step that consumes a child, its parent had been consumed before |
| `BoundaryTheorems.OnlyConsumeCommits` | src/sose/composition/boundary.py:273-333 | no operation but an acknowledgement makes a delivery consumed |
| `BoundaryTheorems.NewDeliveriesArePending` | src/sose/composition/boundary.py:153-173 | a delivery enters the store pending |
| `BoundaryTheorems.CommandXorCertificate` | src/sose/composition/effects.py:100-183 | an acknowledged delivery with a certified intent has exactly one of pending Command and certificate |
| `BoundaryTheorems.CertificateHasOneReceipt` | src/sose/composition/effects.py:130-143 | every certificate is reached by exactly one acknowledgement |
| `BoundaryTheorems.DeadlockFreedom` | src/sose/composition/boundary.py:216-271 | at every point of every run with no live lease, every acknowledged Command executed, a certificate for every certified effect a typed child waits on and no typed child waiting for an unpublished parent, an unfiltered claim raises exactly when an entity certified for such a child's parent has left the certified state, and otherwise returns a lease exactly when a delivery is unconsumed |
| `BoundaryTheorems.ClaimRaisesExactly` | src/sose/composition/boundary.py:216-256 | at every point of every run, for every filter, a claim raises if and only if it looks at a delivery whose typed parent is consumed and certified and whose certified entity has since left the certified state |
| `BoundaryTheorems.MovingOnRaises` | src/sose/composition/boundary.py:418-437 | at any point of any run with such a delivery, saving the certified entity in another state makes the next claim raise |
| `BoundaryRuns.MovingOnReached` | src/sose/composition/boundary.py:418-437 | for every row of the certified table that needs no receivable, a run of six transactions: after five such a delivery stands open and no unfiltered claim raises, after the sixth every one does |
| `BoundaryTheorems.TypedChildReadyIffTerminalKept` | src/sose/composition/boundary.py:418-437 | the exact condition under which a typed child of a certified effect is ready rather than broken: the entity is still in the certified state, which is stricter than the auditor |
| `BoundaryModel.AuditTargetsMatchTerminals` | src/sose/composition/audit.py:170-180 | the auditor's list of certified contracts, entity types and payload fields agrees with the service's table |
| `BoundaryAudit.AuditCausalHistory` | src/sose/composition/audit.py:60-199 | the auditor as loops over deliveries, links, receipts and certificates accepts exactly the stores its checks describe |
| `BoundaryAudit.CheckLinks` | src/sose/composition/audit.py:88-120 | the link checks: typed parents present and strictly earlier, typed events known and not later |
| `BoundaryAudit.CheckReceipts` | src/sose/composition/audit.py:122-199 | the receipt checks, with the set of certificates reached from acknowledgements |
| `BoundaryAudit.AuditExact` | src/sose/composition/audit.py:60-199 | on a reachable store the audit accepts if and only if every typed parent is published strictly earlier and certified contracts are accounted for, so its other branches are unreachable |
| `BoundaryAudit.AuditExactForDisciplinedRuns` | src/sose/composition/audit.py:60-199 | where every handler of a certified contract stages a certified intent, acceptance is exactly that typed parents are present and strictly earlier |
| `BoundaryAudit.AcknowledgedContractAccounted` | src/sose/composition/effects.py:100-183 | along such runs every acknowledged delivery of a certified contract has exactly one of pending Command and certificate |
| `BoundaryAudit.RecoveryRow` | src/sose/composition/recovery.py:213-281 | the recovery registry handles a certified contract with the intent, destination, entity type and payload field of its row in the table, and no other contract with any row |
| `BoundaryAudit.RecoveryIsDisciplined` | src/sose/composition/recovery.py:213-281 | so every registry it builds stages certified intents for certified contracts |
| `BoundaryAudit.AuditExactForRecoveryRuns` | src/sose/composition/recovery.py:654-659 | what recovery acknowledges therefore keeps the audit exact |
| `BoundaryAudit.EqualTimestampsDiverge` | src/sose/composition/audit.py:98-113 | a typed child with its parent's timestamp is admitted by the writer and refused by the audit |
| `BoundaryRuns.EqualTimestampsReached` | src/sose/composition/audit.py:98-113 | that run with equal timestamps: the writer publishes the child and the auditor refuses the store |
| `BoundaryAudit.InspectProtocol` | src/sose/composition/boundary_observation.py:98-236 | the observer's walk accepts exactly the selections its checks describe: admitted edges, records that belong to the selection by message, delivery or receipt identity, claim provenance, time fence and receipt |
| `BoundaryAudit.ObserverAgrees` | src/sose/composition/boundary_observation.py:98-236 | at every point of every run the observer accepts a selection if and only if it is published and its edges are admitted |
| `Cycles.CycleSearch.Visit` | src/sose/composition/organization.py:275-284 | the recursive visit returns with its node and everything below it ranked, or exhibits a cycle |
| `Cycles.RejectsCycle` | src/sose/composition/organization.py:262-287 | the depth-first search reports a cycle if and only if the boundary graph has one |
| `Cycles.DetectCycle` | src/sose/composition/audit.py:44-57 | the visited/path walk reports a cycle if and only if the parent map has one |
| `Cycles.RankExcludesCycle` | src/sose/composition/organization.py:262-287 | a ranking that falls along every edge excludes every cycle |
| `RecoveryBudget.CountPublications` | src/sose/composition/recovery.py:322-339 | every enrolled publication is durable and counts once |
| `RecoveryBudget.CountAcks` | src/sose/composition/recovery.py:340-371 | counts exactly the enrolled acknowledgements that were committed, and raises exactly where one lost its effect record |
| `RecoveryBudget.CountEffects` | src/sose/composition/recovery.py:372-399 | counts exactly the enrolled effects that were executed, and raises exactly where one lost its record |
| `RecoveryBudget.PublishBudgeted` | src/sose/composition/boundary.py:138-157 | a charged publication raises the recorded spending by one, a refused one by nothing |
| `RecoveryBudget.ClaimBudgeted` | src/sose/composition/recovery.py:585-629 | claiming costs nothing |
| `RecoveryBudget.EnrolAckBudgeted` | src/sose/composition/recovery.py:642-653 | enrolling ingress costs nothing until it is acknowledged |
| `RecoveryBudget.ConsumeBudgeted` | src/sose/composition/recovery.py:654-659 | acknowledging enrolled ingress costs one action or raises at no cost |
| `RecoveryBudget.EnrolEffectBudgeted` | src/sose/composition/recovery.py:467-480 | enrolling an effect costs nothing until it is executed |
| `RecoveryBudget.FinishBudgeted` | src/sose/composition/trading_company_customer.py:1035-1052 | executing an enrolled effect costs one action, certified or not, or raises at no cost |
| `RecoveryBudget.PublishWork` | src/sose/composition/boundary.py:138-157 | a publication, charged to the job, raises the store's total work by one, a refused one by nothing |
| `RecoveryBudget.ConsumeWork` | src/sose/composition/boundary.py:273-333 | an acknowledgement raises it by one, enrolled or not |
| `RecoveryBudget.FinishWork` | src/sose/composition/trading_company_customer.py:1035-1052 | certifying or retiring an effect raises it by one |
| `RecoveryBudget.ForeignBudgeted` | src/sose/composition/recovery.py:312-401 | a transaction of another writer that is not charged to the job and leaves its enrolled ingress and effects alone changes nothing in what the job has spent |
| `RecoveryBudget.ForeignRunBudgeted` | src/sose/composition/recovery.py:312-401 | nor does any number of them |
| `RecoveryBudget.CloseBudgeted` | src/sose/composition/recovery.py:783-806 | finishing a trigger clears its enrolments, so the next starts from nothing spent |
| `RecoveryBudget.CertifiedNeverLost` | src/sose/composition/recovery.py:360-399 | with only certified intents enrolled a resume can always account for them |
| `RecoveryBudget.UncertifiedIsLost` | src/sose/composition/trading_company_customer.py:1048-1052 | executing an enrolled uncertified intent makes the next resume raise |
| `RecoveryBudget.LostExactly` | src/sose/composition/recovery.py:360-379 | a resume raises if and only if an enrolled uncertified intent was executed |
| `RecoveryRunners.RecoveryRunner.Recount` | src/sose/composition/recovery.py:312-401 | the counter rebuilt on resume is exactly the number of committed actions; it raises exactly when a record was lost, and the guard against an overrun budget never fires |
| `RecoveryRunners.RecoveryRunner.NextPending` | src/sose/composition/recovery.py:152-168 | the first executable effect by production time and then message identity, or a proof that there is none |
| `RecoveryRunners.RecoveryRunner.ReconcileEgress` | src/sose/composition/trading_company_customer.py:1284-1379 | verifies durable messages, publishes missing ones up to the allowance; what it commits never exceeds what it reports as emitted, and equals it unless one message is named twice |
| `RecoveryRunners.RecoveryRunner.ExecutePending` | src/sose/composition/recovery.py:432-512 | enrols, applies the committed domain transitions, then executes one effect: one action and its Command gone, or deferred at no cost; it raises only where a certified Command misses its terminal state, and dies only where its life ran out |
| `RecoveryRunners.RecoveryRunner.ClaimFirst` | src/sose/composition/recovery.py:585-629 | leases for the first of the five claims that finds an eligible delivery; raises only where a claim is malformed or the certified entity behind a typed child moved on |
| `RecoveryRunners.RecoveryRunner.Accept` | src/sose/composition/recovery.py:634-659 | enrols claimed ingress before acknowledging it: one action and a consumed delivery; under a lease just taken it raises only where nobody handles the message |
| `RecoveryRunners.RecoveryRunner.RunBounded` | src/sose/composition/recovery.py:286-660 | one process life commits within the budget whatever the domains offer and wherever it dies, and the store gains exactly what was committed; it dies only where its life ran out and not with the life its turns need; it raises only over a lost record, a conflicting or inadmissible message, a failing claim, an unhandled message or an unreached terminal state, read off the records; otherwise it finishes with its budget used, its turns used, each for an action or a deferral, or nothing left to do |
| `RecoveryRunners.RecoveryRunner.RunTurns` | src/sose/composition/recovery.py:422-660 | the loop itself, from the actions counted so far |
| `RecoveryRunners.RecoveryRunner.OneTurn` | src/sose/composition/recovery.py:424-660 | every turn adds an action, defers an effect, raises for a stated cause, or finds nothing to do |
| `RecoveryRunners.RecoveryRunner.TakeIn` | src/sose/composition/recovery.py:515-660 | a turn without an executable effect publishes, claims and accepts, and is idle only where there was nothing of the kind to do |
| `RecoveryRunners.RecoveryRunner.RunTrigger` | src/sose/composition/recovery.py:674-808 | a completed trigger changes nothing, a foreign active trigger refuses, and a finished one is recorded with its enrolments cleared; the store gained exactly the actions committed; with enough life it does not die, and it raises for the stated causes only |
| `RecoveryRunners.RecoveryRunner.RunOccurrence` | src/sose/composition/recovery.py:286-660 | over any number of deaths and resumes one occurrence adds at most max_actions publications, acknowledgements and executed effects to the store, enrolled or not; the count it finally reports is never below that number, and equals it where no reconciliation names a message twice |
| `JobRunner.SimulationJob.ClaimTick` | src/sose/jobs/runner.py:614-705 | claims, resumes, reports a trigger already done, or refuses, exactly in the stated cases |
| `JobRunner.ClaimCredited` | src/sose/jobs/runner.py:673-705 | every committed advance belongs to a completed trigger, to the active one, or to the abandoned ones, and a claim that drops a committed advance is the only step that abandons one or lets one be taken over |
| `JobRunner.SimulationJob.AdvanceEngine` | src/sose/core/engine.py:344-397 | the tick commit: one further or unchanged |
| `JobRunner.SimulationJob.ReachReconcile` | src/sose/jobs/runner.py:892-972 | from wherever a previous life left the claimed tick to the reconcile phase, advancing at most once |
| `JobRunner.SimulationJob.CompleteTick` | src/sose/jobs/runner.py:996-1022 | the reconciled tick becomes the last completed one |
| `JobRunner.SimulationJob.RunTick` | src/sose/jobs/runner.py:829-890 | where the trigger was not the last completed one, a tick that returns has appended the trigger to the log of committed advances exactly when the checkpoint did not already hold an advance for it to use; a trigger completing for the first time then stands in the log of all lives exactly once if and only if it abandoned as many advances as it took over; the last completed trigger changes nothing; with enough life, no fault and no refusal it returns |
| `JobRunner.ExactlyOnce` | src/sose/jobs/runner.py:673-705 | between ticks a trigger completed once was advanced once if and only if it abandoned as many advances as it took over |
| `JobRunner.LogIsCompletions` | src/sose/jobs/runner.py:829-890 | between ticks the advances are the completions, each as often, if and only if exactly what was abandoned was taken over |
| `JobRunner.SimulationJob.RunClaimed` | src/sose/jobs/runner.py:861-890 | the claimed tick ends unresolved with its advance committed or not, or completed with exactly one |
| `JobRunner.SimulationJob.RunTickOverLives` | src/sose/jobs/runner.py:829-890 | one direct tick from an idle job over any number of deaths and failures advances exactly once |
| `JobRunner.SimulationJob.ResumeAndRun` | src/sose/jobs/runner.py:332-351 | after a pause and resume on a committed tick the next trigger returns without an advance of its own |
| `JobRunner.PauseLosesATick` | src/sose/jobs/runner.py:332-351 | a new job in which that happens: the second trigger completes and was never advanced |
| `JobRunner.SimulationJob.SetStatus` | src/sose/jobs/runner.py:326-351 | pause and resume are refused exactly while a trigger runs, a batch is active, or a failed trigger is to be resumed |
| `JobRunner.ResumeForgetsFailure` | src/sose/jobs/runner.py:332-351 | a failed direct tick can be paused and resumed but not resumed at once, and the next claim then finds a tick ahead of its own exactly when the failed one was committed but not noted |
| `JobRunner.SimulationJob.ClaimBatch` | src/sose/jobs/runner.py:444-519 | a batch is claimed when idle or resumed with recover; refusals change nothing |
| `JobRunner.SimulationJob.SaveProgress` | src/sose/jobs/runner.py:521-537 | counts the child that just completed |
| `JobRunner.SimulationJob.FinalizeBatch` | src/sose/jobs/runner.py:539-578 | closes the batch with its permanent record |
| `JobRunner.SimulationJob.RunChildren` | src/sose/jobs/runner.py:796-812 | runs the remaining children in order, whatever a previous life left unfinished |
| `JobRunner.SimulationJob.RunTrigger` | src/sose/jobs/runner.py:762-827 | runs ticks_per_trigger ticks where no count is given, the count given otherwise, and the total of a batch it resumes; refused exactly where a new count is out of range or differs from the resumed total; when it returns, the log since the claim is the batch's children once each and in order, from the first not done already to the last, or to one forged beyond it; it is exactly the n children if and only if none was skipped and none forged; a recorded trigger changes nothing; the reported start tick is right exactly under the stated condition; with enough life and no fault it returns |
| `JobRunner.ExactlyTheChildren` | src/sose/jobs/runner.py:794-812 | the children a batch log admits are exactly the n requested if and only if none was skipped and none overran |
| `JobRunner.SimulationJob.ForgeChild` | src/sose/jobs/runner.py:596-612 | between its last child and its closing a batch accepts child n + 1, whatever was requested |
| `JobRunner.SimulationJob.OverrunBatch` | src/sose/jobs/runner.py:596-612 | from any idle job a batch of n ticks that closes with n + 1 advances |
| `JobRunner.SimulationJob.RunOccurrence` | src/sose/jobs/runner.py:762-827 | over any number of deaths, failures and recoveries the durable tick ends at the tick at claim plus n, each child advanced exactly once |
| `JobRunner.StartTick` | src/sose/jobs/runner.py:794-795 | the reported start tick is right if and only if the batch was not resumed while a child was reconciling or completed but uncounted |
| `JobRunner.AdvancedSound` | src/sose/core/engine.py:344-397 | a committed advance extends the log of the current batch by exactly its next child |
| `DurableStoreManagers.DurableStoreManager.TakeNumber` | src/sose/core/stores.py:588-597 | one above every number in use, receipts' own items aside |
| `DurableStoreManagers.DurableStoreManager.Put` | src/sose/core/stores.py:144-173 | the intent is durable before the backend hears of it; a live id is refused |
| `DurableStoreManagers.DurableStoreManager.EnsurePut` | src/sose/core/stores.py:175-218 | returns the stored or consumed item, or puts it exactly once; refused exactly where the id is known with another value, or pending with another value or priority |
| `DurableStoreManagers.DurableStoreManager.Get` | src/sose/core/stores.py:220-255 | the request is durable before the backend hears of it; a known request is refused |
| `DurableStoreManagers.DurableStoreManager.CommitStored` | src/sose/core/stores.py:257-289 | the put commit, idempotent |
| `DurableStoreManagers.DurableStoreManager.CommitReceived` | src/sose/core/stores.py:291-350 | the selection commit: a receipt is final, otherwise item, request and receipt change together |
| `DurableStoreManagers.DurableStoreManager.Sorted` | src/sose/core/stores.py:600-606 | lists the keys of a table by ascending number |
| `DurableStoreManagers.DurableStoreManager.RebuildBackend` | src/sose/core/stores.py:80-142 | feeds items, then intents and requests, to a new backend by ascending number; refused exactly when the items exceed the capacity |
| `DurableStores.NextKeepsInv` | src/sose/core/stores.py:80-350 | every put, get, grant, callback, crash and rebuild keeps the queue invariant |
| `DurableStores.ReachableInv` | src/sose/core/stores.py:80-350 | the queue invariant holds at every point of every run |
| `DurableStores.CommitNeverRaises` | src/sose/core/stores.py:257-350 | at every point of every run delivering the oldest callback never raises: its intent or item and its request are still there |
| `DurableStores.CommitGetWrites` | src/sose/core/stores.py:291-350 | a selection commits if and only if its request is pending and its item known; the receipt keeps the item, the time and the request's number |
| `DurableStores.FifoPairing` | src/sose/core/stores.py:291-350 | the k-th get ever issued can only receive the k-th item ever put, with its value and priority |
| `DurableStores.ItemInOnePlace` | src/sose/core/stores.py:257-350 | every item ever put is in exactly one of intent, stored and consumed, and consumed at most once |
| `DurableStores.PlainPutNeedsFreshIds` | src/sose/core/stores.py:144-160 | a plain put that passes the check keeps its id in one place if and only if the id was never put before |
| `DurableStores.EnsurePutIsFresh` | src/sose/core/stores.py:175-218 | an id ensured anew was never put |
| `DurableStores.RestoredInOrder` | src/sose/core/stores.py:600-606 | sorting live records by number recovers the issue order |
| `DurableStores.RebuildAlwaysWorks` | src/sose/core/stores.py:64-142 | a rebuild is always accepted and restores queue contents and both waiting queues in issue order |
| `DurableStores.RestartEquivalence` | src/sose/core/stores.py:80-142 | two runs with one issue history, wherever they crashed, come to rest with the same items, intents, requests and receipts |
| `DurableStores.SequencesAreReused` | src/sose/core/stores.py:588-597 | a run of seven steps after which number 2 was issued and is the next number |
| `DurableStores.IssuedNumbers` | src/sose/core/stores.py:588-597 | at every point of every run the numbers ever issued are those in the records, the items inside receipts included |
| `DurableStores.NumberIsFresh` | src/sose/core/stores.py:588-597 | at every point of every run the next number is above every number ever issued if and only if it is above the number of every receipt's item |
| `DurableStores.NumberIsFreshInFamily` | src/sose/core/stores.py:588-597 | the same across all stores that share the counter, however their runs interleave |
| `Preemption.NextKeepsInv` | src/sose/core/preemption.py:34-602 | whatever the backend calls back, and wherever the process dies: capacity holds, nobody is both pending and reserved, a request holds at most one reservation |
| `Preemption.ReachableInv` | src/sose/core/preemption.py:34-602 | that invariant at every point of every run |
| `Preemption.SwapsOneOwner` | src/sose/core/preemption.py:379-419 | a preemption commit swaps exactly one owner and keeps the number held of every resource |
| `Preemption.SwapKeepsReleasesHeld` | src/sose/core/preemption.py:379-419 | it keeps the releases consistent if and only if the displaced reservation was not being released |
| `Preemption.GrantWrites` | src/sose/core/preemption.py:421-449 | a granted demand becomes one reservation with its own priority and number |
| `Preemption.SwapWrites` | src/sose/core/preemption.py:379-419 | a preemption commit does that, removes the displaced reservation and records who displaced whom, where and when |
| `Preemption.NoGrantLeftBehind` | src/sose/core/preemption.py:551-557 | after the waiting grants of a resource were reconsidered without raising, one that still waits has its own resource full or being released |
| `Preemption.ValidRebuildExact` | src/sose/core/preemption.py:34-122 | at every point of every run rebuild validation accepts if and only if every outstanding release still has its reservation |
| `Preemption.RebuildAccepted` | src/sose/core/preemption.py:34-156 | in every run whose releases the backend did not refuse, validation accepts at every crash point |
| `Preemption.ReleasesHeldThroughout` | src/sose/core/preemption.py:277-311 | and no release intent is outstanding while a backend is up |
| `Preemption.RebuildClearsReleases` | src/sose/core/preemption.py:588-602 | a finished rebuild leaves no release intent and only releases what was intended |
| `Preemption.PreemptedWhileReleasing` | src/sose/core/preemption.py:277-311 | a refused release followed by a preemption of its owner leaves records a rebuild refuses |
| `Preemption.RefusedReleaseStrandsRebuild` | src/sose/core/preemption.py:277-311 | from any rebuildable records in which a demand waits for a held resource, a run of five steps that ends in records a rebuild refuses |
| `Preemption.HandshakeConfluence` | src/sose/core/preemption.py:333-449 | at every point of every run the two callbacks of a fresh pair reach the same durable records in either order if and only if the resource is full or a release is outstanding |
| `PreemptionManagers.DurablePreemptiveResourceManager.RequestResource` | src/sose/core/preemption.py:219-248 | a demand is recorded unless the resource is unknown or the request known |
| `PreemptionManagers.DurablePreemptiveResourceManager.Cancel` | src/sose/core/preemption.py:250-275 | a pending demand and its handshake fragments go when the backend agrees |
| `PreemptionManagers.DurablePreemptiveResourceManager.ReleaseReservation` | src/sose/core/preemption.py:277-311 | intent, backend, both records, then waiting grants; with the backend refusing or the process dying in between, and raising exactly where the lease is gone, the backend refuses or a waiting grant raises |
| `PreemptionManagers.DurablePreemptiveResourceManager.RecordAcquired` | src/sose/core/preemption.py:333-353 | the acquired callback; it raises exactly where the pair crosses resources |
| `PreemptionManagers.DurablePreemptiveResourceManager.RecordPreempted` | src/sose/core/preemption.py:355-377 | the preempted callback; it raises exactly where the winner is missing, the resource is wrong or the pair crosses resources |
| `PreemptionManagers.DurablePreemptiveResourceManager.TryCommitPreemption` | src/sose/core/preemption.py:379-419 | commits the swap exactly when both callbacks arrived and both records are there |
| `PreemptionManagers.DurablePreemptiveResourceManager.TryCommitNormalGrant` | src/sose/core/preemption.py:421-449 | commits a grant exactly when there is durable room and nothing is being released |
| `PreemptionManagers.DurablePreemptiveResourceManager.ReconcilePendingGrants` | src/sose/core/preemption.py:551-557 | reconsiders waiting grants of one resource in order, up to one that raises |
| `PreemptionManagers.DurablePreemptiveResourceManager.FinalizeInterruptedReleases` | src/sose/core/preemption.py:588-602 | finishes interrupted releases one transaction at a time, as far as the process lives |
| `PreemptionManagers.DurablePreemptiveResourceManager.RebuildBackend` | src/sose/core/preemption.py:124-156 | forgets ephemeral state, validates against the conditions written out, finishes releases |
| `Containers.NextKeepsInv` | src/sose/core/containers.py:106-234 | every request, grant, callback, crash and rebuild keeps the level invariant |
| `Containers.CommitNeverRaises` | src/sose/core/containers.py:196-204 | at every point of every run a completed operation is feasible durably: the infeasible branch is unreachable |
| `Containers.LevelConserved` | src/sose/core/containers.py:182-234 | at every crash point the level is the initial level plus the amounts of all put results minus those of all get results, each counted once, within capacity, and rebuild validation accepts |
| `Containers.CommitExactly` | src/sose/core/containers.py:182-234 | a pending put or get commits if and only if the level plus or minus its amount is within bounds, and that is the new level |
| `Containers.GrantExactly` | src/sose/core/containers.py:106-130 | the backend may complete a put if and only if it fits and a get if and only if the level covers it |
| `Containers.AsRequested` | src/sose/core/containers.py:182-295 | at every point of every run every intent and result has the operation and amount asked for under its id |
| `Containers.ChainConserves` | src/sose/core/containers.py:212-232 | results chain: each starts at the level the one before it left |
| `Containers.RefinesBackend` | src/sose/core/containers.py:106-130 | once its callbacks are delivered the backend level is the durable level |
| `Containers.DurableContainerManager.RequestOperation` | src/sose/core/containers.py:262-295 | an intent with a fresh number, or a refusal for a known request |
| `Containers.DurableContainerManager.CommitOperation` | src/sose/core/containers.py:182-234 | level, result and intent move together, idempotently; a put raises the level by its amount and a get lowers it, and the result carries both |
| `Containers.DurableContainerManager.Deliver` | src/sose/core/containers.py:297-322 | a delivered callback commits its operation and never raises |
| `Containers.DurableContainerManager.RebuildBackend` | src/sose/core/containers.py:106-130 | validates, then recreates the backend at the durable level with every pending operation |
| `Encoding.EncodingIsInjective` | src/sose/core/encoding.py:11-18 | two argument tuples encode to the same bytes if and only if they are equal up to mapping order |
| `Encoding.DecodeRoundTrip` | src/sose/core/encoding.py:21-23 | a decoder recovers every encodable value, up to mapping order, and leaves the following bytes alone |
| `Encoding.CanonKeepsPayload` | src/sose/core/encoding.py:37-42 | reordering mappings canonically changes no byte |
| `Encoding.MappingOrderIrrelevant` | src/sose/core/encoding.py:37-42 | two mappings with the same items, whose keys encode differently, have the same bytes in any insertion order |
| `Encoding.MappingsEncodeAlike` | src/sose/core/encoding.py:37-42 | two encodable mappings have the same bytes if and only if every encoded key has the same values in the same order, with no assumption on the keys |
| `Encoding.NanKeysKeepOrder` | src/sose/core/encoding.py:27-42 | two NaN keys are two keys that encode alike: there insertion order reaches the bytes exactly when the values differ |
| `Encoding.DecimalRoundTrip` | src/sose/core/encoding.py:27-28 | decimal text determines the integer, sign included |
| `Encoding.TagBytes` | src/sose/core/encoding.py:21-60 | the tag byte of every kind of value, an eight-byte length and the payload |
| `Encoding.LengthExactly` | src/sose/core/encoding.py:21-23 | a length overflows exactly from two to the sixty-fourth on |
| `Encoding.FaultKind` | src/sose/core/encoding.py:46-85 | encoding raises a type error only over a value of unknown kind, and always raises over one |
| `Encoding.BigEndianRoundTrip` | src/sose/core/encoding.py:21-23 | an eight-byte length prefix determines every length it can hold |
| `DomainStore.Convergence` | src/sose/domain/warehouse.py:68-95 | consistent mutations in any order and with any duplication are never refused and leave the same warehouse |
| `DomainStore.ConvergesToLatest` | src/sose/domain/warehouse.py:68-95 | per key that warehouse holds the entity of the highest version |
| `DomainStore.ReadYourWrites` | src/sose/domain/entity_store.py:38-63 | reading an entity returns exactly the last saved one, and never conflicts |
| `DomainStore.ReadersNeverConflict` | src/sose/domain/entity_store.py:38-63 | the same at every point of every run |
| `DomainStore.DeliveryNeverRefused` | src/sose/domain/warehouse.py:68-95 | at every point of every run the warehouse takes whatever is pending |
| `DomainStore.DeliveryIsInvisible` | src/sose/domain/outbox.py:37-60 | applying, dying before the acknowledgement, acknowledging or failing changes nothing a reader sees |
| `DomainStore.ReadersSeeLastSave` | src/sose/domain/storage.py:39-70 | at every point of every run a reader sees the last save of that key |
| `DomainStore.SaveExactly` | src/sose/domain/storage.py:39-70 | in every run a first or newer save is taken as it is, a change under the current version goes one version up with its contents, the same entity again changes nothing, and an older one is refused; what is saved is staged for delivery |
| `DomainStore.SaveKeepsInv` | src/sose/domain/storage.py:39-70 | a save is refused only as stale, its identity conflict branch is unreachable, and what it persists becomes current |
| `DomainStore.ApplyNeverRefuses` | src/sose/domain/warehouse.py:68-95 | the warehouse never refuses a mutation the facade prepared |
| `DomainStore.NextKeepsInv` | src/sose/domain/outbox.py:37-67 | every step of saving and delivering keeps revisions unique, derived and covered |
| `DomainStore.DrainedWarehouse` | src/sose/domain/outbox.py:62-67 | with an empty outbox the warehouse is exactly what was saved |
| `DomainFacade.MemoryDomainWarehouse.ApplyMutation` | src/sose/domain/warehouse.py:68-95 | the apply branches: replayed, superseded, conflicting, applied |
| `DomainFacade.DomainPersistence.ReadEntity` | src/sose/domain/entity_store.py:52-63 | gathers warehouse and pending entities and returns the consistent latest, which is the last saved |
| `DomainFacade.DomainPersistence.LatestConsistent` | src/sose/domain/entity_store.py:38-50 | the unique entity of highest version, or a conflict exactly when two differ at it |
| `DomainFacade.DomainPersistence.SaveEntity` | src/sose/domain/storage.py:39-70 | one save as its own transaction, with the revision bump |
| `DomainFacade.DomainPersistence.Deliver` | src/sose/domain/outbox.py:37-60 | apply, then acknowledge, or die in between, or count a failed attempt where the warehouse is out of reach; the warehouse it leaves and the result it returns |
| `DomainFacade.DomainPersistence.Flush` | src/sose/domain/outbox.py:62-67 | delivers everything pending up to the first failure and counts it: what left the outbox is in the warehouse, the failing delivery stays with one more attempt where the warehouse was out of reach, the rest stay as they were; where none fails the warehouse is what was saved |
| `DomainFacade.DomainPersistence.ReadAll` | src/sose/domain/storage.py:87-102 | the merged list of entities agrees with reading them one by one and never conflicts |
| `DomainFacade.DomainUnitOfWork.GetEntity` | src/sose/domain/storage.py:31-37 | a transaction reads its own saves |
| `DomainFacade.DomainUnitOfWork.SaveEntity` | src/sose/domain/storage.py:39-70 | stages one save on top of those before it in the transaction |
| `DomainFacade.DomainUnitOfWork.Commit` | src/sose/domain/storage.py:104-107 | everything staged becomes durable at once |
| `PullRequestFlow.Simulate` | src/sose/examples/organizational_pr_review.py:147-290 | the ledger holds exactly the drawn reviews of every request, each with the next cycle, ready when CI or the rework before it ends, and of the drawn duration; its item events are CI and what those reviews led to, so a queue event is a wait in which every reviewer is busy; reviews start in the order they became ready, one at a time per reviewer; completion is the end of the last review, and durations sum to lead time |
| `PullRequestFlow.DispatchAccounted` | src/sose/examples/organizational_pr_review.py:190-281 | a dispatch keeps every request's reviews, item events and place in the heap in agreement |
| `PullRequestFlow.QueueIsBusy` | src/sose/examples/organizational_pr_review.py:191-203 | a queue event lies within a wait in which every reviewer is reviewing |
| `PullRequestFlow.TimeByCategory` | src/sose/examples/organizational_pr_review.py:171-281 | the time of a request is CI time in processing, the drawn review times in coordination, the drawn revision times in rework and the rest in queue |
| `PullRequestFlow.RunCI` | src/sose/examples/organizational_pr_review.py:171-184 | every request runs CI from its opening and enters the heap, with no review yet, at exactly the time CI ends |
| `PullRequestFlow.RunReviews` | src/sose/examples/organizational_pr_review.py:186-281 | serves the heap until every request has had its drawn reviews, all on record in both ledgers; it ends |
| `PullRequestFlow.EarliestCase` | src/sose/examples/organizational_pr_review.py:186-187 | the heap minimum by ready time and then request |
| `PullRequestFlow.EarliestReviewer` | src/sose/examples/organizational_pr_review.py:188-188 | the first available reviewer, ties by identity |
| `PullRequestFlow.Step` | src/sose/examples/organizational_pr_review.py:189-281 | one dispatch, event by event |
| `PullRequestFlow.DispatchScheduled` | src/sose/examples/organizational_pr_review.py:187-230 | each dispatch keeps every reviewer busy from the current ready time until it is next free |
| `PullRequestFlow.DispatchFair` | src/sose/examples/organizational_pr_review.py:187-230 | each dispatch keeps order, exclusiveness and work conservation |
| `PullRequestFlow.DispatchTiles` | src/sose/examples/organizational_pr_review.py:190-281 | the events of a dispatch extend their own request's tiling and no other |
| `PullRequestFlow.TiledDurations` | src/sose/examples/organizational_pr_review.py:190-281 | tiled events account for the whole span |
| `WipSweep.PeakWip` | src/sose/organizational/calibration.py:191-206 | the sweep returns the maximum over all instants of the number of half-open intervals containing it |
| `WipSweep.PeakIsMaximum` | src/sose/organizational/calibration.py:191-206 | the running maximum over sorted boundaries is reached at an instant and never exceeded |
| `WipSweep.CountBetween` | src/sose/organizational/calibration.py:191-206 | between two boundaries the swept count is the true count |
| `WipSweep.AreaIsLeadTime` | src/sose/organizational/calibration.py:83-86 | the area under the sweep is the sum of lead times |
| `WipSweep.MeanBelowPeak` | src/sose/organizational/calibration.py:83-86 | mean work in progress never exceeds the peak |

## Left out

- Databases, file locks, writer-epoch claims and the adapters behind the transaction interface: foreign storage; a transaction is an atomic step.
- The queueing library behind the backend: replaced by its queues, level or callbacks; which grantable operation it serves next is left open for containers, and it is FIFO for stores.
- Physical resource intents and their ledger inside recovery: the budget is that of unmapped work.
- The domain steps of `_execute_intent`: any sequence of entity saves. The publication inside `accept_inventory_reservation` is not charged by the source and not modelled.
- Config updates, sinks and bootstrap in the job runner.
- RecoveryRunners.RecoveryRunner.ReconcileEgress: the four reconciliations differ only in how they derive what to publish, which is a parameter; deriving it from domain state is not modelled.
- RecoveryRunners.RecoveryRunner.RunBounded: runs without an active trigger, which charge nothing, are not modelled.
- RecoveryRunners.RecoveryRunner.RunTrigger: the logical-time rewind check, the binding of the configuration, the check for orphaned enrolments and job registration are not modelled.
- RecoveryRunners.RecoveryRunner.RunOccurrence: no other writer's transaction falls between this runner's own; where writers are scoped to one correlation the others may commit in between, and `ForeignRunBudgeted` shows that this changes nothing the job has spent, but the store's total work then includes theirs.
- JobRunner.SimulationJob.RunTick: only the last completed trigger is recognised as done, as in the source, so exactly-once is stated for a trigger's first completion; the default trigger id of a direct tick is a parameter, and the position before the first tick is tick 0.
- DurableStoreManagers.DurableStoreManager.EnsurePut: running the backend to the present after the put is left to the backend's own steps.
- DurableStores.FifoPairing: priority and filter stores are not modelled; other stores enter only through the shared counter.
- BoundaryRuns.MovingOnReached: the row that needs a consistent open receivable is not among the runs spelled out.
- BoundaryAudit.InspectProtocol: the identity a message derives from its own fields is a given string, so the check for a forged one is not modelled; records are tables by identity, so neither are the checks for duplicates.
- BoundaryAudit.AuditExactForRecoveryRuns: only the registry of the recovery runner is modelled, not those of the demonstration drivers.
- PreemptionManagers.DurablePreemptiveResourceManager.RequestResource: the sequence number arrives with the demand, and what the backend does with the submission is left to the callbacks, which may come in any order.
- PreemptionManagers.DurablePreemptiveResourceManager.RebuildBackend: resubmitting reservations and demands to the new backend is left to the callbacks in the same way, so the number restored is not returned.
- Containers.LevelConserved: over exact reals, so float rounding is not modelled; one container, others enter only through the shared counter.
- Preemption.NextKeepsInv: on_acquired notifications, `ensure_requested` and `withdraw`, which only compose modelled operations, are not modelled; definitions are fixed.
- Encoding.EncodingIsInjective: UTF-8, `float.hex` and `isoformat` texts are taken as given byte strings.
- PullRequestFlow.Simulate: exact reals; the number of reviews per request is finite, where the source stops with probability one; the initial sort of cases, the final sort of events, the model hash and the author's ledger entries are not modelled.
- WipSweep.PeakWip: distribution summaries, rates and continuous-integration intervals of the same calibration are not modelled.
- DomainStore.ReadYourWrites: mutations enqueued under ids of the caller's own choosing are covered by convergence only.
- Boundary handler registration, payload canonicalisation, certificate receipt ids, and the audit report's digest and counts.
- `core/resources.py`, a simpler copy of the preemption manager; calendars, schedules, configuration, command line and hash checks.
