# Verified model of durable alerting, the control spine and shadow runs

This project models three protocols over durable rows and proves what they promise in every run: the durable
alert outbox, the investigation control spine and the shadow runs that nest it. Each repository method is one
transaction, or a few; each transaction is one atomic step; any number of callers interleave, any of them may
crash between two steps, and clocks are arbitrary. `dafny verify dfyconfig.toml` checks everything.

**Alert outbox** (`Outbox*`, `Delivery`, `Identity`, `Backoff`, `Alert*`). Two layers. `OutboxGuards` is the
database: a write is accepted iff every trigger and CHECK of migrations 0007 and 0008 lets it through.
`OutboxOperations` says what each repository operation does, `OutboxSystem` lets workers, evaluators and
operators interleave over the tables and a log of POSTs. `ApplicationRefinesGuards` connects the layers; the
run-long facts follow in `OutboxHistory`, `OutboxProgress`, `OutboxLedger`, `OutboxEffect`, `OutboxSpacing` and
`OutboxBatch`, and `OutboxWitnesses` has a run for each property that holds only under a condition.
`OutboxRepository` and `AlertRepository` hold the repository, the worker loop and the alert recorder as classes
that update the tables in place, each method proved against the operations; what a worker is to do with an answer
is stated apart (`Worth`, `EvidenceOf`, `Verdict`, `DefaultDelay`). `AlertSystem` interleaves recording with all other
steps and matches outbox rows with lifecycle evaluations, field by field.

**Control spine** (`Control*`, `Evidence`). `ControlSystem` gives every `_resume` caller a program counter and
its own, possibly stale, record of the run. `ControlTheorems` has audit replay, review, at-most-once tools and
gating; `ControlConfluence` fixes what the first claim of each tool comes to and proves that all interleavings
end alike; `ControlProgress` bounds every caller and shows that nobody is stuck; `ControlReach` drives any run on
to its destination; `ControlRest` shows that a shadow run at rest never changes. `ControlRules` states on the stored
rows alone which move a stage calls for and why a run may be escalated; `ControlReasons` proves that all moves and
escalations of all runs follow it. `ControlRepository`, `ControlService` and `ControlIntake` are the same code as
classes with loops; `ControlActs` says what entitles a session to each thing it does, and the classes keep a ghost
record of their acts that is proved to be entitled.

**Shadow runs** (`Shadow*`). Callers take two sorted advisory locks, claim or observe a row, nest an
investigation with its tool locks, complete and unlock. `ShadowTheorems` has single claims, refusals, exactly-once
completion and deadlock freedom. Nested intakes share one key table with plain ones: `ShadowNesting` says exactly
when the nested intake is refused and which started runs can still finish. `ShadowRepository` and `ShadowService`
are the imperative form.

In the classes, `OtherTransactions`, `OtherSessions` and `OtherIntakes` mark the points between two transactions.
Their contracts allow any change that keeps the invariant and moves forward; their bodies change nothing, since
only the contract is visible to callers. That the steps of everybody else stay within those contracts is
proved: `OutboxSystem.StepIsSound` for the first, `ControlRepository.OthersContinue` and
`ShadowRepository.OthersContinue` for the second, and for the third `ControlIntake.OthersGrow` together with the
contract of `BeginIntake`.

Assumptions. An advisory lock is dropped only by its caller, at release or when its session ends. Only the outbox
completes ledger rows; an earlier delivery path may leave a claimed one. HTTP status codes lie in 100 to 599
(section 15 of RFC 9110). A 2xx answer means that the receiver took the request in: the exactly-once half of
`EffectivelyOnce` rests on that, its at-most-once half does not. Row ids are numbers, in keys their decimal text.
SHA-256 is injective on what it digests, so a digest is modelled as the fields it covers. Advisory lock keys are
arbitrary integers; all that is assumed is that no tool lock key equals a shadow lock key. A random run id that is
already taken makes the intake raise. Tool adapters return what their types say.

## Where the code differs from its description

- `docs/decisions/0009-m2-durable-alert-outbox.md` says that a crash cannot lose a committed intent. A worker that
  dies on the last budgeted attempt leaves its row IN_FLIGHT for good (`CrashStrandsTheFinalAttempt`):
  `RowIsStuckIffFrozen` proves that this is the only way, besides delivery and a dead letter at 100 attempts, in
  which a row never changes again.
- A re-drive sets the ceiling to `min(attempt_count + additional, 100)`, which may be below the old `max_attempts`
  (`RedriveLowersTheCeiling`; exactly when, says `RedriveGrantsAttempts`).
- The backoff saturates at the smaller of the cap and 2^16 times the base, so a tiny base never reaches the cap
  (`ATinyBaseNeverReachesTheCap`, `CapIsReachedIff`).
- After a re-drive the ledger stays FAILED even when the row becomes DELIVERED (`DeliveredWithAFailedLedger`,
  `LedgerFailedIffEverDeadLettered`).
- `record_dead_letter` accepts a retryable outcome before the budget is spent, but the trigger then refuses it
  (`EarlyBurialIsRefused`, `OutcomeVerdict`).
- The triggers let `redrive_count` rise without a re-drive (`RedriveCounterIsLoose`, in a reachable state
  `TakeoverMayRaiseTheCounter`), so at the guard layer the ledger of a terminal row either matches it or is FAILED;
  the exact rule needs the repository's statements.
- `audit` reads events and run in two transactions, so its two states may differ (`AuditMayDisagree`; exactly when,
  says `AuditAgreesIffNothingMoved`).
- A request that `AlertRepository.record` answers because its payload is already stored does not bind its key: another
  payload may take the key afterwards, and then the same request conflicts (`PayloadReplayDoesNotBindTheKey`).
- The code EVIDENCE_DUPLICATE cannot be raised: three items that cover three tools are distinct.
- A shadow idempotency key that resolved to a run through its case is not bound to that run
  (`KeyAloneDoesNotIdentify`); what identifies a run is the payload (`ClaimsAgreeIffSamePayload`), and a request is
  refused exactly as `RequestIsRefusedIff` says.
- The key `shadow:<id>` of a nested intake is an ordinary key: `POST /v1/investigations` passes any header of 1 to
  200 characters on (src/stockoutops/api.py:101-107), and the mode is not part of the payload hash. A plain intake
  that takes the key first with another payload blocks the shadow run for good (`APlainIntakeBlocksARestart`,
  `StartedRunIsStuckIff`); with the same payload the shadow run goes on with a human-review investigation
  (`NestedInvestigationIsShadowIff`).

## Model

| member | source | states |
|---|---|---|
| Identity.KeyIsInjective | src/stockoutops/alerting/outbox.py:34-37 | two delivery keys are equal only if tenant, evaluation id and transition all are, even when a tenant contains a colon |
| Identity.KeyFitsItsColumn | migrations/0008_m2_alert_outbox.sql:16 | for a bigint evaluation id and a contract-sized tenant the key meets the 1 to 500 character CHECK |
| Identity.DigitsAreInjective | src/stockoutops/alerting/outbox.py:34-37 | the decimal text of the evaluation id determines the id |
| Identity.SplitAtLastColon | src/stockoutops/alerting/outbox.py:34-37 | text before and after the last colon of a key can be told apart |
| Identity.KeySpelling | src/stockoutops/alerting/outbox.py:34-37 | the key is tenant, decimal id and transition with colons between, with the six transition names spelled out |
| Identity.DigitsReadBack | src/stockoutops/alerting/outbox.py:34-37 | read from the left, the digits are the number |
| Backoff.DelayIsMonotoneAndCapped | src/stockoutops/alerting/outbox.py:40-51 | for a positive base the delay never falls as attempts rise and never passes the cap |
| Backoff.DelayDoublesUntilItSaturates | src/stockoutops/alerting/outbox.py:40-51 | each delay is exactly twice the one before, cut at the cap, until the exponent stops at 16; then it is constant |
| Backoff.CapIsReachedIff | src/stockoutops/alerting/outbox.py:40-51 | some attempt waits the whole cap iff 2^16 times the base is at least the cap |
| Backoff.DefaultDelays | src/stockoutops/alerting/outbox.py:24-51 | with the defaults the delays are 2, 4, 8, 16, 32, 64, 128 and 256 seconds after attempts 1 to 8, and 300 from then on |
| OutboxGuards.GuardLayerSafety | migrations/0008_m2_alert_outbox.sql:201-396 | after any sequence of attempted writes: counters never fall, DELIVERED rows and terminal ledger rows are permanent, every terminal row has agreeing attempt evidence and a ledger row of its identity |
| OutboxGuards.ReplayKeepsGuards | migrations/0008_m2_alert_outbox.sql:222-396 | the same, from any state that satisfies it, with what no accepted write can undo |
| OutboxGuards.CommitEvolves | migrations/0008_m2_alert_outbox.sql:255-396 | one accepted write keeps identity, counters, delivered rows, evidence and finished ledger rows |
| OutboxGuards.CommitKeepsGuards | migrations/0008_m2_alert_outbox.sql:275-390 | one accepted write leaves every terminal row with agreeing evidence |
| OutboxGuards.RedriveCounterIsLoose | migrations/0008_m2_alert_outbox.sql:222-396 | the triggers alone do not tie redrive_count to re-drives: any other accepted update may raise it too |
| OutboxGuards.AcceptedUpdates | migrations/0008_m2_alert_outbox.sql:222-396 | what trigger and CHECKs leave of updates: a row is leased only when due, by one attempt and until later; taken over only after its expiry; settled only on the evidence of that attempt by its owner; and only a re-drive revives it or changes its ceiling |
| OutboxGuards.TransactIsReplay | migrations/0008_m2_alert_outbox.sql:201-451 | a transaction whose every write is accepted reaches what attempting the writes one by one reaches |
| OutboxInvariant.OutcomePassesGuard | migrations/0008_m2_alert_outbox.sql:286-390 | the row update of an admissible outcome passes the update trigger and all CHECKs, including the ledger match at redrive_count 0 and FAILED above it |
| OutboxInvariant.EvidenceIsAccepted | migrations/0008_m2_alert_outbox.sql:409-451 | the evidence insert for the attempt in flight passes the event trigger |
| OutboxInvariant.LedgerWritesAreAccepted | migrations/0007_m2_alert_webhook_delivery.sql:48-134 | the claim and completion of the ledger row pass both ledger triggers and add up to the first terminal outcome |
| OutboxInvariant.OutcomeIsAccepted | src/stockoutops/alerting/outbox.py:230-342 | the whole outcome transaction is accepted write by write and has exactly the stated effect |
| OutboxInvariant.OutcomeIsRefused | src/stockoutops/alerting/outbox.py:303-342 | a failure that the triggers do not admit is refused, so the whole transaction rolls back |
| OutboxInvariant.LeaseIsAccepted | src/stockoutops/alerting/outbox.py:161-216 | the update that leases or takes over an eligible row is accepted; the lease handed out holds the row |
| OutboxInvariant.RedriveIsAccepted | src/stockoutops/alerting/outbox.py:346-401 | the re-drive update is accepted and keeps the invariant, also when it lowers max_attempts |
| OutboxInvariant.EvaluationIsAccepted | src/stockoutops/alerting/outbox.py:92-142 | the insert of an evaluation with its delivery intent is accepted as one transaction |
| OutboxInvariant.SettleKeepsInv | src/stockoutops/alerting/outbox.py:230-342 | recording an outcome keeps the invariant of all tables |
| OutboxInvariant.RelyKeepsFaithful | src/stockoutops/alerting/outbox.py:188-216 | whatever others commit, the max_attempts, owner and expiry that a lease remembers stay those of the row while the lease is current |
| OutboxInvariant.FreshIntentIsNew | migrations/0008_m2_alert_outbox.sql:32-33 | an intent for a new evaluation never collides with an existing delivery key |
| OutboxSystem.ProcessIsAdmissible | src/stockoutops/alerting/worker.py:114-165 | what the worker reports for a held lease is always something the triggers admit |
| OutboxSystem.RecordSettlesOrLoses | src/stockoutops/alerting/outbox.py:459-513 | for a lease once issued, recording either settles the row with all writes accepted, or raises the lost-lease error; nothing else |
| OutboxSystem.StepIsSound | src/stockoutops/alerting/outbox.py:146-401 | every step, from any state of the invariant, keeps it and is a transaction that the guard layer accepts |
| OutboxSystem.StepKeepsInv | src/stockoutops/alerting/worker.py:102-165 | every step keeps the tables and what each worker remembers consistent |
| OutboxSystem.RunKeepsInv | src/stockoutops/alerting/worker.py:102-165 | the invariant holds in every reachable state |
| OutboxSystem.ApplicationRefinesGuards | src/stockoutops/alerting/outbox.py:146-622 | in every run all writes pass all triggers and CHECKs, and replaying them through the guard layer gives the same tables |
| OutboxHistory.RowChangesBy | src/stockoutops/alerting/outbox.py:515-566 | a row is written only by a lease, an outcome of its current lease or a re-drive, each with exactly its stated result |
| OutboxHistory.EachAttemptIsIssuedOnce | src/stockoutops/alerting/outbox.py:188-196 | attempt numbers of one row are issued in strictly rising order, so each at most once ever |
| OutboxHistory.SupersededLeaseIsPowerless | src/stockoutops/alerting/outbox.py:470-490 | once a later lease of the row was issued, under whatever worker id, every report under the earlier one is refused |
| OutboxHistory.OnlyTheLatestLeaseReports | src/stockoutops/alerting/outbox.py:533-566 | an outcome is recorded only under the latest lease, and only once under it |
| OutboxHistory.ExpiryAloneDoesNotFence | src/stockoutops/alerting/outbox.py:470-490 | an expired lease that nobody took over still reports its outcome |
| OutboxHistory.AttemptsAreConserved | src/stockoutops/alerting/outbox.py:186-196 | attempt_count equals attempt events plus takeovers plus one while in flight |
| OutboxHistory.EvidenceConservation | src/stockoutops/alerting/outbox.py:459-513 | events have numbers within 1 to attempt_count, none for the active attempt, one for attempt_count otherwise; a delivered event exists iff the row is DELIVERED, and it is the last |
| OutboxHistory.EveryWriteLowersTheMeasure | src/stockoutops/alerting/outbox.py:171-196 | each lease, takeover, outcome and re-drive lowers 3 * (100 - attempt_count) plus the rank of the state |
| OutboxHistory.RunsAreBounded | migrations/0008_m2_alert_outbox.sql:18-20 | a row is written at most 301 times; redrive_count <= attempt_count <= max_attempts <= 100 throughout |
| OutboxHistory.RedriveGrantsAttempts | src/stockoutops/alerting/outbox.py:346-401 | a re-drive succeeds exactly on a dead-lettered row of the tenant below 100 attempts, keeps its attempts, grants min(additional, 100 - attempt_count) more, due at once, and lowers max_attempts exactly when that is less than the row gave up |
| OutboxHistory.RedrivesAreCounted | src/stockoutops/alerting/outbox.py:379-399 | redrive_count is the number of successful re-drives of the row |
| OutboxProgress.NoLostIntent | src/stockoutops/alerting/outbox.py:167-198 | each row is delivered, dead-lettered, in flight on its final attempt, or selectable from a stated time on; and the first three are exactly the rows no scan ever selects |
| OutboxProgress.FrozenForever | src/stockoutops/alerting/outbox.py:72-74 | delivered rows, rows dead-lettered at 100 attempts and rows whose final attempt lost its worker never change again |
| OutboxProgress.OtherRowsCanMove | src/stockoutops/alerting/outbox.py:146-401 | every other row is written again in some continuation |
| OutboxProgress.RowIsStuckIffFrozen | src/stockoutops/alerting/outbox.py:167-198 | a row never changes again iff it is one of those three kinds, in every reachable state |
| OutboxLedger.LedgerIsFirstTerminalOutcome | src/stockoutops/alerting/outbox.py:568-622 | the ledger row mirrors the first terminal outcome of the intent, whatever later re-drives achieve |
| OutboxLedger.LedgerFailedIffEverDeadLettered | src/stockoutops/alerting/outbox.py:325-342 | the ledger row is FAILED iff the row was ever dead-lettered |
| OutboxLedger.LedgerIsWrittenOnce | migrations/0007_m2_alert_webhook_delivery.sql:103-134 | a ledger row in a terminal status is the same in every continuation |
| OutboxEffect.SendsAreStable | src/stockoutops/alerting/worker.py:114-135 | two POSTs carry the same key iff they are for the same intent, and then the same payload |
| OutboxEffect.ReceiverAppliesOnce | src/stockoutops/alerting/worker.py:114-135 | on such a wire a receiver that drops repeated keys applies an intent once if any request got through, else never |
| OutboxEffect.EffectivelyOnce | src/stockoutops/alerting/worker.py:102-160 | over all runs with crashes, takeovers and re-drives each intent is applied at most once, and exactly once if its row is DELIVERED |
| OutboxSpacing.ConsecutiveLeasesAreSpaced | src/stockoutops/alerting/outbox.py:165-182 | with a nondecreasing clock and no re-drive between, two leases of a row are at least the smaller of lease duration and backoff apart |
| OutboxSpacing.LatestLeaseIsMarked | src/stockoutops/alerting/outbox.py:279-300 | from a lease on, the row is not due again before its expiry or before its recorded backoff has passed |
| OutboxWitnesses.CrashStrandsTheFinalAttempt | src/stockoutops/alerting/outbox.py:167-182 | a run of three steps after which the intent is in flight for good, whatever follows |
| OutboxWitnesses.RedriveLowersTheCeiling | src/stockoutops/alerting/outbox.py:346-401 | a run in which a re-drive takes max_attempts from 5 to 2 |
| OutboxWitnesses.DeliveredWithAFailedLedger | src/stockoutops/alerting/outbox.py:568-622 | a run that ends with a DELIVERED row whose ledger row is FAILED |
| OutboxWitnesses.EarlyBurialIsRefused | src/stockoutops/alerting/outbox.py:303-342 | a reachable state and a lease that is held, for which a retryable dead letter is refused by the trigger |
| OutboxWitnesses.TakeoverMayRaiseTheCounter | migrations/0008_m2_alert_outbox.sql:222-396 | a reachable state in which the triggers accept a takeover that raises redrive_count from 0 to 7 |
| OutboxWitnesses.ATinyBaseNeverReachesTheCap | src/stockoutops/alerting/outbox.py:40-51 | with a base of a millisecond no attempt ever waits the cap |
| OutboxBatch.BatchIsDetermined | src/stockoutops/alerting/outbox.py:165-182 | the first n unlocked eligible rows in (next_attempt_at, outbox_id) order are unique |
| OutboxBatch.BatchIsOldestDue | src/stockoutops/alerting/outbox.py:165-182 | a batch is made of due, unlocked rows, each due before or at the time of any that is left out, with ids breaking ties; rows are left out only if it is full |
| OutboxBatch.LeaseAllTouchesOnlyItsRows | src/stockoutops/alerting/outbox.py:183-196 | the batch update bumps each selected row by one attempt and leaves all others alone |
| OutboxBatch.BatchIsARunOfLeases | src/stockoutops/alerting/outbox.py:161-216 | one batch lease has the effect of that many single leases, so the interleaved system covers it |
| OutboxRepository.AlertOutboxRepository.EnqueueInTransaction | src/stockoutops/alerting/outbox.py:92-142 | returns the new outbox id, of a pending row with this budget that is due from the time of enqueuing on, or none for an intent that was already there; a bad budget or a refused insert raises with nothing changed |
| OutboxRepository.AlertOutboxRepository.SelectDue | src/stockoutops/alerting/outbox.py:165-182 | returns exactly the batch: the first due unlocked rows in order |
| OutboxRepository.AlertOutboxRepository.InsertById | src/stockoutops/alerting/outbox.py:199-216 | the returned leases are the same ones, sorted by outbox id |
| OutboxRepository.AlertOutboxRepository.Lease | src/stockoutops/alerting/outbox.py:146-216 | leases exactly the first min(batch_size, n) due unlocked rows, each bumped by one, all others untouched; the leases, sorted by id, are for this worker until now plus the lease time; on a refusal nothing changes |
| OutboxRepository.AlertOutboxRepository.TakeNext | src/stockoutops/alerting/outbox.py:183-216 | leases one more row of the batch and puts its lease in order among the others |
| OutboxRepository.AlertOutboxRepository.AppendAttemptEvent | src/stockoutops/alerting/outbox.py:459-513 | inserts the evidence under the fence, or raises the lost-lease error when the attempt is no longer in flight |
| OutboxRepository.AlertOutboxRepository.WriteTerminalLedger | src/stockoutops/alerting/outbox.py:568-622 | claims the ledger row if missing and completes it only if still claimed |
| OutboxRepository.AlertOutboxRepository.Transition | src/stockoutops/alerting/outbox.py:515-566 | moves the fenced row to its next state with the lease cleared |
| OutboxRepository.AlertOutboxRepository.RecordDelivered | src/stockoutops/alerting/outbox.py:220-256 | equals the stated effect of a delivery, or the error with nothing changed |
| OutboxRepository.AlertOutboxRepository.RecordRetry | src/stockoutops/alerting/outbox.py:259-300 | equals the stated effect of a retry with the backoff of the attempt, or the first error that applies |
| OutboxRepository.AlertOutboxRepository.RecordDeadLetter | src/stockoutops/alerting/outbox.py:303-342 | equals the stated effect of a dead letter; a retryable outcome before the budget is spent is refused by the trigger |
| OutboxRepository.AlertOutboxRepository.Redrive | src/stockoutops/alerting/outbox.py:346-401 | equals the stated re-drive, or not found, not dead-lettered, ceiling reached |
| OutboxRepository.OutcomeByStages | src/stockoutops/alerting/outbox.py:230-342 | evidence, ledger and row statements issued one after another are the one transaction |
| OutboxRepository.OutcomeVerdict | src/stockoutops/alerting/outbox.py:230-342 | the outcome transaction commits iff the outcome is admissible |
| OutboxRepository.AlertOutboxWorker.RunOnce | src/stockoutops/alerting/worker.py:102-112 | each lease of the batch is sent once, in order, with its own key and payload; unless it was lost to others its own outcome is recorded, and in the end none is held; the counters are the sums; leased equals delivered plus retried plus dead-lettered plus lease-lost |
| OutboxRepository.AlertOutboxWorker.Process | src/stockoutops/alerting/worker.py:114-165 | sends the intent once; then either records exactly the outcome that the answer calls for, with its status or error class, its times and the default backoff, or finds the lease lost and records nothing; the one counter that moves says which; nothing else raises |
| OutboxRepository.AlertOutboxWorker.SettleAll | src/stockoutops/alerting/worker.py:110-112 | the loop of run_once: item k under exchange k, whatever others do in between |
| OutboxRepository.AlertOutboxWorker.Post | src/stockoutops/alerting/worker.py:114-121 | what goes out is the intent, its own payload under its own key |
| OutboxRepository.AlertOutboxWorker.RecordAnswer | src/stockoutops/alerting/worker.py:129-165 | a held lease gets the outcome of its answer and a lost one leaves everything as it is |
| OutboxRepository.AnswerIs | src/stockoutops/alerting/worker.py:129-165 | the decision of the worker leads to exactly the outcome that the answer calls for, or to the lost-lease error |
| OutboxRepository.AnswerSettles | src/stockoutops/alerting/outbox.py:459-566 | after that outcome the row stands where the answer took it, with its evidence, and the lease no longer holds |
| OutboxRepository.SettledStays | src/stockoutops/alerting/outbox.py:470-490 | a lease once settled or lost is never held again, and its evidence stays, whatever others do |
| Delivery.DecisionsAreWellFormed | src/stockoutops/alerting/worker.py:61-81 | every answer and transport error is classified into an outcome whose status and error class meet the evidence CHECK |
| Delivery.DecisionIsByTheBook | src/stockoutops/alerting/worker.py:61-157 | what is reported, and where the row goes: 2xx is delivery, 5xx and transport errors are retried within the budget, all else is final; with the status or error class of the answer |
| AlertHistory.HistoryTellsTheLifecycle | src/stockoutops/alerting/repository.py:80-90 | the stored state depends only on the last two measured outcomes; FIRED and RESOLVED strictly alternate from FIRED, one ahead iff FIRING |
| AlertHistory.RecordedTells | src/stockoutops/alerting/repository.py:123-207 | that description holds after any sequence of record calls, for every fingerprint |
| AlertHistory.IntentsMatchLifecycle | src/stockoutops/alerting/enqueue.py:48-70 | in the abstract history, with delivery enabled the intents are the lifecycle evaluations, one to one and in order; without it there are none |
| AlertHistory.LifecycleIdsAscend | src/stockoutops/alerting/delivery.py:21-31 | exactly the FIRED and RESOLVED evaluations are notified, in ascending id order |
| AlertHistory.EventsTellOutcomes | src/stockoutops/alerting/repository.py:80-90 | each stored evaluation reports what the measured outcomes before it and its own make of it: INITIAL_OK only as the first, STILL_OK, FIRED, STILL_FIRING and RESOLVED after what they follow, UNMEASURED without a state |
| AlertHistory.ConflictIff | src/stockoutops/alerting/repository.py:128-142 | a request conflicts iff an evaluation of its fingerprint is stored under its key with another payload |
| AlertHistory.StoredRequestIsReplayed | src/stockoutops/alerting/repository.py:128-151 | a request stored under its own key is answered from the store ever after |
| AlertHistory.PayloadReplayDoesNotBindTheKey | src/stockoutops/alerting/repository.py:143-151 | a history in which a request is answered by its payload, and after another one took its key, the same request conflicts |
| AlertHistory.EvaluationsAreUnique | src/stockoutops/alerting/repository.py:123-160 | no two evaluations of a fingerprint share a key or a payload hash |
| AlertHistory.ReplaysInsertNothing | src/stockoutops/alerting/repository.py:123-160 | a repeated request changes nothing |
| AlertRepository.AlertRepository.Record | src/stockoutops/alerting/repository.py:105-207 | appends the evaluation of this very request and its intent together or neither; equals the pure history step; a replay changes nothing |
| AlertRepository.LinkCounts | src/stockoutops/alerting/enqueue.py:48-70 | while the recorder keeps its invariant, exactly one outbox row has the id of each evaluation to be notified, and tells it as it is; no other id has any |
| AlertRepository.IntentTells | src/stockoutops/alerting/webhook.py:21-47 | the intent of an evaluation carries its fields one by one, the digest of that payload and the delivery key |
| AlertRepository.FingerprintIsInjective | src/stockoutops/alerting/repository.py:31-42 | two evaluations have one fingerprint iff policy, version, tenant and correlation agree |
| AlertSystem.OutboxMatchesLifecycle | src/stockoutops/alerting/enqueue.py:48-70 | on the tables, after any interleaving of recording with leases, outcomes, re-drives and crashes: with delivery enabled exactly one outbox row for each FIRED or RESOLVED evaluation, with its payload, payload hash and delivery key, and none for any other id |
| AlertSystem.RowsAreTheHistory | src/stockoutops/alerting/repository.py:123-207 | the evaluations of such a run are the history of its requests, so what holds of histories holds of the stored rows |
| AlertSystem.RunKeepsInv | src/stockoutops/alerting/repository.py:105-207 | tables, worker memory and the link between evaluations and outbox rows stay consistent over every such run |
| AlertRepository.EvaluationStages | src/stockoutops/alerting/repository.py:160-207 | evaluation and intent writes issued one after the other are one transaction |
| Evidence.BundleAcceptedIff | src/stockoutops/evidence/contracts.py:110-128 | a bundle passes iff it is one item of each of the three tools, each with aware times and the id of its own facts, none from the future, inventory at most 86400 seconds old, sales 172800, supplier data 259200; the duplicate code can never be the one raised |
| Evidence.BundleRefusedIff | src/stockoutops/evidence/contracts.py:110-128 | it is refused with a code iff that is the code of the first check that fails: incomplete, or of the first item that is not sound, provenance before staleness |
| Evidence.FirstFailureIs | src/stockoutops/evidence/contracts.py:116-128 | the loop raises nothing iff every item is sound, else the code of the first that is not |
| Evidence.ItemFailureIs | src/stockoutops/evidence/contracts.py:64-128 | the checks of one item, with the freshness limits of 24, 48 and 72 hours in seconds |
| ControlInvariant.CasMovesOn | src/stockoutops/repository.py:336-388 | a compare-and-set that wins acted on exactly the current row, and the move is legal |
| ControlInvariant.ReviewMovesOn | src/stockoutops/service.py:365-410 | a review, accepted or refused, keeps the invariant |
| ControlInvariant.AdvanceIsSound | src/stockoutops/service.py:97-177 | every step of a caller keeps the rows sound and lands on a justified point; no step raises |
| ControlInvariant.AdvanceTouches | src/stockoutops/repository.py:476-533 | a tool row changes only under the lock of its tool, and locks only at both ends of a claim |
| ControlInvariant.OwnerIsGated | src/stockoutops/service.py:299-326 | whoever owns the reasoning claim holds exactly the stored evidence that passed the quality checks |
| ControlInvariant.StepKeepsInv | src/stockoutops/service.py:84-177 | every step of any caller, crash, review or logged rejection keeps the invariant |
| ControlInvariant.RunKeepsInv | src/stockoutops/service.py:84-177 | the invariant holds in every reachable state |
| ControlTheorems.AuditReplaysTheRun | src/stockoutops/service.py:434-451 | for every interleaving with arbitrarily stale rejections, the genuine events form a path in the transition table from created to the current state, state_version long, and the fold returns that state |
| ControlTheorems.AuditAgreesIffNothingMoved | src/stockoutops/service.py:434-457 | the replayed state equals the current state read later iff no transition committed in between |
| ControlTheorems.AuditMayDisagree | src/stockoutops/service.py:434-457 | a run in which a transition commits between the two reads, so that the replayed state is not the current one |
| ControlTheorems.TransitionExtendsPath | src/stockoutops/state_machine.py:25-62 | one genuine event extends a path of the transition table by one step |
| ControlTheorems.PathsAreStaged | src/stockoutops/state_machine.py:25-62 | the transition table allows no shortcut: a path to a working state or to the reviewer has gone through every stage before it, and nothing is closed that was neither decided nor escalated |
| ControlTheorems.ReviewOverAllRuns | src/stockoutops/repository.py:563-716 | decision states are never visible; closed iff decided, at version 8, by the assigned reviewer, on the stored draft hash, within expiry; never for shadow or escalated runs |
| ControlTheorems.FreshDraftIsReviewableIff | src/stockoutops/repository.py:604-624 | before its draft a run cannot be decided; after it, exactly by the assigned reviewer, on that draft hash, for 24 hours, and never in shadow mode |
| ControlTheorems.ReviewRefusals | src/stockoutops/repository.py:588-640 | in every reachable state a review is refused with exactly one code for each case, in order: shadow run, not awaiting review, another reviewer, another draft, too late |
| ControlTheorems.DecisionIsFinal | src/stockoutops/repository.py:588-650 | a decision once made is the same in every continuation |
| ControlTheorems.ToolsAreCalledAtMostOnce | src/stockoutops/repository.py:476-501 | across all callers and crashes each tool of a run is called at most once |
| ControlTheorems.FinishedResultsAreFinal | src/stockoutops/repository.py:503-533 | a finished tool row never changes again |
| ControlTheorems.ReasoningIsGated | src/stockoutops/service.py:299-326 | reasoning is called only on the three stored items, accepted as one bundle |
| ControlTheorems.DraftsCiteAcceptedEvidence | src/stockoutops/service.py:149-175 | awaiting human or closed implies the draft that reasoning gave, on an accepted bundle, each citation the id of one of its items |
| ControlTheorems.RunsMoveOn | src/stockoutops/repository.py:336-431 | along every run the row only moves to later versions and finished tool rows stay |
| ControlRules.CalledForIsUnique | src/stockoutops/service.py:97-177 | the stored rows and the stage call for one move, with one code if it is an escalation |
| ControlRules.DispatchIsCalledFor | src/stockoutops/service.py:97-177 | a caller that dispatches on its record is about to make that move |
| ControlRules.AfterToolIsCalledFor | src/stockoutops/service.py:179-190 | so is one that has read or completed the row of a tool |
| ControlRules.RowForLeaves | src/stockoutops/service.py:257-353 | a call leaves its result, its failure code, or INVALID_REASONING_OUTPUT if it cites what it was not given |
| ControlReasons.EveryMoveIsCalledFor | src/stockoutops/service.py:97-177 | in every reachable state, whoever is about to move the run is about to make the move that the rows call for, and they still do |
| ControlReasons.EscalationHasItsReason | src/stockoutops/service.py:110-148 | in every reachable state a run is escalated only for a reason that its rows show, under that code, logged once: the first evidence tool without a result, the first failing check of the bundle, or reasoning without a result; beyond the quality checks the bundle is accepted |
| ControlReasons.RunKeepsReasons | src/stockoutops/service.py:84-177 | the invariant behind both, for any callers, crashes, reviews and rejections |
| ControlActs.RightfulThen | src/stockoutops/service.py:84-95 | what a session did stays rightful as the run goes on, and passes add up |
| ControlActs.CommitIsRightful | src/stockoutops/service.py:97-177 | a move is rightful after the work it is due to |
| ControlConfluence.Confluence | src/stockoutops/service.py:97-177 | with the first-claim outcome of each tool fixed, in every state of every interleaving the run is on the way to the one destination or there; at most one run_escalated event, with the code of the first failing stage |
| ControlConfluence.RunKeepsPlan | src/stockoutops/service.py:179-353 | every tool row, every pending move and the event log agree with the plan in all runs that follow it |
| ControlConfluence.AfterToolIsPlanned | src/stockoutops/service.py:179-190 | whoever reads a tool row, its owner or a later caller, takes the move that the plan foresees, with the original failure code |
| ControlConfluence.ReturnedCallersAgree | src/stockoutops/service.py:84-95 | every caller that returns has seen the run at its destination |
| ControlConfluence.RestIsPlanned | src/stockoutops/service.py:97-177 | at rest state, version, draft and escalation log are exactly those of the destination; only a review tells closed at 8 from awaiting human at 6 |
| ControlConfluence.SameFinalState | src/stockoutops/service.py:84-177 | two interleavings of one plan that come to rest end alike |
| ControlProgress.CallersTakeBoundedlyManySteps | src/stockoutops/service.py:84-95 | a caller that is not killed never raises and takes at most 298 steps, whatever the others do |
| ControlProgress.StepSpendsFuel | src/stockoutops/service.py:84-95 | a version conflict means that the run has strictly advanced, so a retry is progress too |
| ControlProgress.NobodyIsStuck | src/stockoutops/repository.py:476-501 | a caller that has not returned can go on, or waits for a live holder that can |
| ControlProgress.EveryCallerCanReturn | src/stockoutops/service.py:84-177 | from every reachable state every caller can be brought to return without killing anybody |
| ControlReach.DestinationIsReached | src/stockoutops/service.py:97-177 | from every state reachable under the plan some continuation that follows the plan comes to rest, at the destination, with its state, version, draft and log |
| ControlReach.DriveToRest | src/stockoutops/service.py:84-177 | any caller still there can be driven until the run rests, killing only owners that the plan abandons |
| ControlRest.RestIsQuiet | src/stockoutops/service.py:84-177 | at rest no caller is about to insert a tool row, to call the tool or to complete the row |
| ControlRest.StepKeepsRest | src/stockoutops/repository.py:336-533 | a step from a shadow run at rest keeps its row, its tool rows and its escalation codes |
| ControlRest.RunKeepsStop | src/stockoutops/service.py:179-190 | every escalation, pending or done, is from a stage with a tool whose row nobody can still write, or from the quality checks with all evidence in |
| ControlRest.ShadowRunsRestForever | src/stockoutops/service.py:84-177 | a shadow run at rest shows the same row, draft, tool rows and escalation codes in every continuation |
| ControlRepository.ToolClaim.Release | src/stockoutops/repository.py:103-110 | gives the lock back once, however often it is asked |
| ControlRepository.Repository.AppendRejectedControl | src/stockoutops/repository.py:314-334 | logs the rejection with the state read in an earlier transaction |
| ControlRepository.Repository.Transition | src/stockoutops/repository.py:336-449 | moves row and log iff the record is current and the target allowed; else logs the conflict or the illegal move and raises its code |
| ControlRepository.Repository.ClaimOrObserveTool | src/stockoutops/repository.py:451-501 | for any caller: takes the lock of the tool; returns the row that is there and gives the lock back, or inserts it and keeps the lock; the insert never hits the unique constraint |
| ControlRepository.Repository.CompleteTool | src/stockoutops/repository.py:503-533 | writes the row, or raises when it was never started |
| ControlRepository.Repository.RecordReview | src/stockoutops/repository.py:563-720 | one transaction: a rejection event with the first failing check, or decision and both transitions |
| ControlRepository.OthersContinue | src/stockoutops/repository.py:451-533 | every step of the system by somebody else is one that the interference allowed to these methods permits |
| ControlService.InvestigationService.Resume | src/stockoutops/service.py:84-95 | terminates, raises nothing, and returns a record at rest; all that the session did on the way was its to do: rows read under their locks, claims completed with the answer of their own tool, moves that the rows called for with their events logged at a reading of the clock, conflicts logged |
| ControlService.InvestigationService.ResumeStep | src/stockoutops/service.py:97-177 | returns at rest, or raises a conflict after which the run is at a later version than the record the pass began with; all acts on the way were rightful |
| ControlService.InvestigationService.StageStep | src/stockoutops/service.py:97-177 | one stage: its work, then its move made, or refused with the conflict logged |
| ControlService.InvestigationService.Work | src/stockoutops/service.py:110-172 | takes exactly the move that its stage calls for on the rows: forward iff the tools have results, the bundle is accepted, the citations hold; else escalation under the code of the first failing check or unfinished tool |
| ControlService.InvestigationService.Commit | src/stockoutops/repository.py:336-431 | makes the move and logs its event, or finds the run at a later version |
| ControlService.InvestigationService.GatherEvidence | src/stockoutops/service.py:192-282 | returns exactly the stored evidence of the three tools, or the code of the first tool without a result, whose row it read under its lock or completed last |
| ControlService.InvestigationService.GatherOne | src/stockoutops/service.py:192-282 | takes the lock and gives it back once; in between it reads the row, or claims it and completes it with what this very tool answers |
| ControlService.InvestigationService.ReasonOnce | src/stockoutops/service.py:299-353 | returns the one stored result, or the code of its row; a claim is completed with the answer of the adapter on the stored evidence |
| ControlService.InvestigationService.Complete | src/stockoutops/service.py:257-281 | records what the call came to and releases the claim |
| ControlService.InvestigationService.Draft | src/stockoutops/service.py:149-172 | at this stage the reasoning row is always complete and cited soundly, so neither escalation of the branch is taken |
| ControlService.InvestigationService.Review | src/stockoutops/service.py:365-410 | each refusal code exactly in its case, in order; success means closed at version 8 with this very decision by the assigned reviewer on the stored draft hash, none before, logged under the state of its action, and an edit only if all it cites is stored evidence; a refusal leaves a rejection event with its code |
| ControlService.InvestigationService.Audit | src/stockoutops/service.py:434-457 | the loop computes the fold over the log as read |
| ControlIntake.Repository.BeginIntake | src/stockoutops/repository.py:157-302 | one run per key also under a lost race: created, the same run again, or a logged conflict; a lost race leaves no orphan run |
| ControlIntake.IntakeIsIdempotent | src/stockoutops/repository.py:157-302 | once an intake under a key gave a run, every later one under it, however far apart and whatever id it drew, gives that run if its payload is the same and the conflict otherwise |
| ControlIntake.Repository.Resume | src/stockoutops/service.py:58-95 | the retry loop on one run of many: that run comes to rest by rightful acts alone, its mode, reviewer and cut-off time stay, keys and other runs only grow |
| ControlIntake.OthersGrow | src/stockoutops/repository.py:157-302 | every step of the system of one run, by anybody, stays within what the intakes allow of each other |
| ShadowInvariant.InsideExcludes | src/stockoutops/shadow/repository.py:166-182 | two callers that hold both locks for one idempotency key, or for one case, are the same caller |
| ShadowInvariant.OthersAreLeftAlone | src/stockoutops/shadow/repository.py:166-267 | no step of another caller changes a row that a lock holder depends on |
| ShadowInvariant.AdvanceKeepsLocks | src/stockoutops/shadow/repository.py:102-110 | a key is locked exactly by the caller that holds it, through sorted acquisition, reverse release and nested tool locks |
| ShadowInvariant.StepKeepsInv | src/stockoutops/shadow/service.py:109-151 | every step of every caller, and every crash, keeps the invariant |
| ShadowInvariant.RunKeepsInv | src/stockoutops/shadow/service.py:109-151 | the invariant holds in every reachable state |
| ShadowTheorems.AtMostOneClaim | src/stockoutops/shadow/repository.py:166-267 | at most one live claim per shadow run, and only on a started one |
| ShadowTheorems.NobodyIsRefusedLate | src/stockoutops/shadow/repository.py:216-250 | the insert never hits either unique constraint, completion never finds the run finished, and an investigation once nested stays bound to the payload of its claim |
| ShadowTheorems.ClaimsAgreeIffSamePayload | src/stockoutops/shadow/repository.py:182-216 | two claims of one history are on the same run iff their payload hashes are equal, whatever keys they came under |
| ShadowTheorems.CompletionHappensOnce | src/stockoutops/shadow/repository.py:269-350 | a completion is logged exactly once for each finished run and never for another, across restarts |
| ShadowTheorems.AnswersAgree | src/stockoutops/shadow/service.py:43-69 | every caller given a result of a run is given the same one, and it never changes |
| ShadowTheorems.RestartsShareTheInvestigation | src/stockoutops/shadow/service.py:122-129 | two claims complete with the same investigation iff they are on the same shadow run |
| ShadowTheorems.WaitingClimbs | src/stockoutops/shadow/repository.py:166-182 | whoever is waited for, if it waits too, waits for a strictly higher lock |
| ShadowTheorems.NoDeadlock | src/stockoutops/shadow/repository.py:166-182 | the wait-for graph of any number of shadow and plain callers is acyclic |
| ShadowTheorems.SomebodyCanMove | src/stockoutops/shadow/repository.py:166-267 | behind every unfinished caller is a chain of waits that ends in a caller that can step |
| ShadowTheorems.RowsChangeUnderTheirLocks | src/stockoutops/shadow/repository.py:166-350 | a row is inserted or completed only by the holder of its locks |
| ShadowTheorems.KeyAloneDoesNotIdentify | src/stockoutops/shadow/repository.py:182-216 | a run in which one idempotency key claims two shadow runs, since a key resolved through the case is not stored |
| ShadowTheorems.SelectRefusesIff | src/stockoutops/shadow/repository.py:182-216 | a select ends in a conflict iff some row matching the key or the case carries another payload |
| ShadowTheorems.RequestIsRefusedIff | src/stockoutops/shadow/repository.py:182-216 | the same for the request that stands at the select, in every reachable state |
| ShadowTheorems.StoredKeysBind | src/stockoutops/shadow/repository.py:182-216 | a key stored in a row refuses every later request of its tenant with another payload |
| ShadowNesting.NestedIntakeIsRefusedIff | src/stockoutops/shadow/service.py:122-129 | in every reachable state the nested intake is refused iff a plain intake took the key shadow:<id> first, with another payload |
| ShadowNesting.EveryBindingHasItsStep | src/stockoutops/repository.py:157-302 | each bound key was bound by one step of the run, a plain or a nested intake, and carries the payload and mode of that step ever since |
| ShadowNesting.UntakenKeysAreSafe | src/stockoutops/shadow/service.py:122-129 | without such a plain intake the nested intake always succeeds, on a shadow investigation |
| ShadowNesting.NestedInvestigationIsShadowIff | src/stockoutops/shadow/service.py:122-129 | the investigation under a key is in shadow mode iff no plain intake took the key first |
| ShadowNesting.BlockedRunsNeverFinish | src/stockoutops/shadow/service.py:122-148 | a started shadow run whose key is bound to another payload is started in every continuation |
| ShadowNesting.OtherRunsCanFinish | src/stockoutops/shadow/service.py:109-151 | every other started shadow run finishes in some continuation |
| ShadowNesting.StartedRunIsStuckIff | src/stockoutops/shadow/service.py:109-151 | a started shadow run can never finish iff its key is bound to another payload |
| ShadowNesting.APlainIntakeBlocksARestart | src/stockoutops/api.py:101-107 | a run in which a plain intake between a crash and the restart blocks the shadow run |
| ShadowTheorems.CollidingKindsDeadlock | src/stockoutops/shadow/repository.py:26-28 | should a tool lock key equal one of the shadow keys, a caller comes to wait for itself |
| ShadowRepository.ShadowClaim.Release | src/stockoutops/shadow/repository.py:102-110 | gives back all its keys once, however often it is asked |
| ShadowRepository.Repository.UnlockReversed | src/stockoutops/shadow/repository.py:107-108 | the loop gives back exactly the given keys |
| ShadowRepository.Repository.BeginOrObserve | src/stockoutops/shadow/repository.py:151-267 | takes the keys in rising order and, unless it hands out a claim, gives them back in reverse; refused iff some row matching the key or the case carries another payload, with the code for one or for two of them and its event; a claim only for the one started row of this payload |
| ShadowRepository.Repository.LockAll | src/stockoutops/shadow/repository.py:166-182 | takes exactly the given keys, in the given rising order, blocking on each |
| ShadowRepository.Repository.Begin | src/stockoutops/shadow/repository.py:216-267 | inserts the row and logs its start; nothing of others comes between that touches it |
| ShadowRepository.Repository.Observe | src/stockoutops/shadow/repository.py:182-216 | the one matching row: refused with its event iff it has another payload, returned without locks if finished, kept under both locks if started |
| ShadowRepository.Repository.Insert | src/stockoutops/shadow/repository.py:216-242 | inserts a new row while both unique constraints hold |
| ShadowRepository.Repository.Complete | src/stockoutops/shadow/repository.py:269-350 | completes a started row once, with its event; any other row raises with nothing changed |
| ShadowRepository.ClaimSurvives | src/stockoutops/shadow/repository.py:166-267 | under the claim the row stays as it is, whatever others do |
| ShadowRepository.OthersContinue | src/stockoutops/shadow/repository.py:166-350 | every step of the system by somebody else is one that the interference allowed to these methods permits |
| ShadowService.ShadowService.Process | src/stockoutops/shadow/service.py:71-151 | the early checks in order touch nothing; else the two keys of this request are taken and given back; a result is that of the one finished row of this payload, its analysis that of the nested investigation at rest, which is in shadow mode and unreviewable if this call created it; an error is a conflict with a row, the reason why there is no nested investigation, or the failure of its analysis; completion never conflicts |
| ShadowService.ShadowService.UnderClaim | src/stockoutops/shadow/service.py:122-151 | under a claim: the nested intake, the analysis of its view at rest, the one completion; refused if the key was bound elsewhere before, and only if it is so now; any other error is a taken run id or the failure of the analysis |
| ShadowService.ShadowService.Investigate | src/stockoutops/shadow/service.py:122-129 | the nested intake gives an investigation at rest bound to this payload, by rightful acts alone; if this call created it, it is in shadow mode for the given reviewer and cut-off time, and every review of it is refused; else the reason |
| ShadowService.RestartsAnalyseTheSame | src/stockoutops/shadow/service.py:153-196 | whatever happens between a crash and the restart, the analysis of a shadow investigation at rest comes out the same |
| ShadowService.PayloadIsTheCase | src/stockoutops/shadow/service.py:100-118 | the payload holds the whole case, so equal payloads are equal cases |
| ShadowService.GoesOnIff | src/stockoutops/shadow/service.py:79-99 | a request passes the early checks iff an operator of its tenant brings a case of this pack under a key of 1 to 200 characters and does not ask to execute |

## Left out

- HTTP transport, exception classes of the client, URLs and settings: a POST is an answer, a timeout or another error.
- SQL text, isolation levels, search_path, grants: writes are guarded by predicates, SKIP LOCKED is a free set of locked rows.
- Web endpoints, review page, tokens, identity files, configuration, command lines, migration runner, fixtures.
- The reasoning adapter and the evidence tools: each call is an arbitrary outcome of its type.
- Fields that no decision reads: SKU, store, supplier, windows and requested_by of requests, metric, severity, values
  and window of alert evaluations and their webhook payloads, and the timestamps of runs and events.
- Policy rates: whether a measurement breached is an input of the alert history.
- Report rendering, collection totals, case-pack checks, the comparison of a shadow outcome with its reference:
  the shadow analysis is an arbitrary function of what it reads of its investigation.
- Shadow case intake (accept and exclude events): it repeats patterns that are modelled elsewhere.
- The earlier synchronous delivery path: its claim appears only as a claimed ledger row that may already be there.
- Read-only queries (get, dead letters, backlog, detail): they return rows as stored.
- Schema validation of stored and submitted JSON, and its code EVIDENCE_SCHEMA_INVALID: values have the shape of their types.
- The control system is stated for one run; runs share no row and no tool lock, and `ControlIntake` relates them.
- ControlConfluence.Confluence: the plan fixes the first-claim outcome of each tool, including a crash of its owner; a tool that answers differently each time is a different plan.
