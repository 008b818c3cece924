# Hermes Life Bridge: verified model

A Dafny model of the bridge's reliability kernel, of the work ledger and of its
two bounded buffers, with proofs of what they promise.

**The operation table and its three services.** `OperationStore` is a durable
table of operations; each method is one transaction, guarded by a transition
table and a compare-and-swap. Contact, percept and cognition services drive it
around an external effect (a provider send, a Runtime send, a Hermes API call).
They appear twice:

- as step systems (`ContactProtocol`, `PerceptProtocol`, `CognitionProtocol`):
  any number of workers, every read and every commit a step of its own, crashes
  between any two steps, restart sweeps, and maintenance purges in two steps
  (read, delete). `...Safety` holds the inductive invariants, `...Theorems` the
  promises over all runs, `PerceptRaces` and `CognitionReuse` the exact
  conditions of those that are false in general, and `BridgeSystem` puts the
  three services on one table, where `BridgePromises` proves the promises again;
- as classes (`ContactService`, `PerceptExecutor`, `CognitionService` over
  `RetryEngine` and `OperationStore.Store`): the methods with their loops and
  fields, each proved to leave tables and answer exactly as a worker of the step
  system left alone does, so that the promises about runs are promises about
  the methods. `ContactAnswers`, `PerceptAnswers` and `CognitionAnswers` say what
  such a call must answer and store from the replies and clock readings it takes
  (`world`), without the step system, and the methods are proved against that too.

`Backoff` is the retry delay over the reals, `Budget` the argument that bounds
attempts when schedulers race, and the waits when they do not.

**The work ledger.** `WorkHistory` says what becomes of a work fact from the
list of calls alone, without epochs or tables; `WorkMetrics` which calls and
facts each daily counter counts; `WorkStore` is the class with its four tables,
proved to be a function of that list.

**The buffers.** `Trace` is the rotating trace log, `EvidenceRegistry` the
least-recently-used registry of tool evidence with an age limit.

Two places where code and documents differ, and the model follows the code.
The design documents of HLB-004.3 and HLB-004.4 describe one bounded retry of a
contact; the code never retries one (`src/hermes_life_bridge/retry_engine.py`,
lines 186-189). And `max_attempts` is checked on a row read before the
transaction, so racing schedulers can pass it; the exact bound is proved and
shown to be reached.

Reading guide: a time is a real number of seconds, except in the work ledger
where it is an integer number of microseconds. An operation id is a constructor
of kind, key and request hash, so ids are injective. `rank` functions stand for
the text order of ids in the database; they take real values, in which the order
of all texts embeds.

## Model

| member | source | states |
|---|---|---|
| ReliabilityContract.TransitionsMoveForward | src/hermes_life_bridge/reliability_contract.py:237-268 | a measure over attempts and states strictly grows on every move the guard allows; terminal states are never left and attempts never fall |
| OperationStore.BuildIsSound | src/hermes_life_bridge/operation_store.py:443-654 | on a valid row every built candidate passes the whole row check and the guard, so the later checks of a transaction fire only on an unsafe error code |
| OperationStore.BuildersMatchGuard | src/hermes_life_bridge/reliability_contract.py:45-65 | the seven transition methods and the guard describe the same edges: one exists exactly when some valid candidate passes the guard |
| OperationStore.CommandMeans | src/hermes_life_bridge/operation_store.py:457-654 | from which states each transition starts, when it is refused as a conflict and when for its arguments, and what every field of the row is afterwards: identity, attempt, error code, delivery outcome, next attempt, and the time of the call as updated_at |
| OperationStore.ReserveMeans | src/hermes_life_bridge/operation_store.py:310-356 | an invalid candidate, a row of the same key with another hash, or an id in use is refused; the durable row of the same key and hash is the answer; only a new row is added |
| OperationStore.ReservePerceptMeans | src/hermes_life_bridge/operation_store.py:221-279 | the same for a percept: corruption exactly when the durable incomplete row has no envelope, and an envelope is stored exactly with a new row |
| OperationStore.HistoryCounts | src/hermes_life_bridge/operation_store.py:457-654 | over any history of a row: attempt = starts, releases <= starts <= releases + 1, releases <= schedules <= releases + 1, identity unchanged, and at most 5 * attempt + 1 transitions |
| OperationStore.TransactKeepsRows | src/hermes_life_bridge/operation_store.py:443-455 | a transaction keeps the table valid, changes one row of the same identity, and never a terminal one |
| OperationStore.ReserveKeepsRows | src/hermes_life_bridge/operation_store.py:310-356 | a reservation changes no durable row, adds at most its own, and answers with the one row of its key |
| OperationStore.SweepIsTransition | src/hermes_life_bridge/operation_store.py:727-767 | the restart sweep is mark_delivery_unknown on each interrupted contact, and passes the same checks |
| OperationStore.SelectPurgeable | src/hermes_life_bridge/operation_store.py:683-712 | the purge scan selects the oldest eligible percept and cognition rows, exactly min(limit, eligible) of them |
| OperationStore.Store.Reserve | src/hermes_life_bridge/operation_store.py:310-356 | idempotent reservation: the durable row, a conflict, a reused id, or one new row |
| OperationStore.Store.ReservePercept | src/hermes_life_bridge/operation_store.py:221-279 | row and envelope are reserved in one transaction; an existing incomplete row without envelope is corruption |
| OperationStore.Store.Transition | src/hermes_life_bridge/operation_store.py:443-455 | one guarded transition of one row, or a refusal that changes nothing, with the row history kept |
| OperationStore.Store.PersistTransition | src/hermes_life_bridge/operation_store.py:398-432 | the compare-and-swap on (state, attempt) succeeds inside its own transaction |
| OperationStore.Store.ListOperations | src/hermes_life_bridge/operation_store.py:376-396 | exactly the rows of a class and state, ordered by (created_at, id) |
| OperationStore.Store.ListOutbox | src/hermes_life_bridge/operation_store.py:303-308 | exactly the outbox ids, ordered by (created_at, id) |
| OperationStore.Store.ClearPerceptEvent | src/hermes_life_bridge/operation_store.py:295-301 | removes one envelope and nothing else |
| OperationStore.Store.RecoverInterruptedContacts | src/hermes_life_bridge/operation_store.py:727-767 | every in-flight contact becomes delivery_unknown, every other row stays, and exactly those are returned |
| OperationStore.Store.PurgeTerminal | src/hermes_life_bridge/operation_store.py:666-712 | exactly the terminal percepts and cognitions last updated before the cut-off go, oldest first up to the limit, with their envelopes; contacts never |
| Backoff.RetryDelaySeconds | src/hermes_life_bridge/retry_engine.py:112-135 | the capped growth loop equals min(max, initial * multiplier^(attempt-1)) with bounded jitter, and refuses a wrong class or no attempt |
| Backoff.DelayIsBounded | src/hermes_life_bridge/retry_engine.py:130-135 | the jittered delay lies between nominal * (1 - j) and min(max, nominal * (1 + j)), within [0, max] |
| Backoff.UnitSpreadsDelay | src/hermes_life_bridge/retry_engine.py:130-135 | the jittered delay is the nominal one at the middle of the draw and swings up with it: nominal * (1 - j) at 0, nominal * (1 + j) at 1, up to the cap |
| Backoff.NominalGrows | src/hermes_life_bridge/retry_engine.py:119-126 | the nominal delay never shrinks with attempts and stays within [initial, max] |
| Budget.WaitingIsBounded | src/hermes_life_bridge/retry_engine.py:202-216 | over the whole history of a row whose retries were each decided on the row they were committed on, at most max_attempts - 1 waits are scheduled, each at most max_backoff |
| Budget.MoveKeepsBudget | src/hermes_life_bridge/retry_engine.py:178-216 | every read or commit of a racing scheduler keeps promised attempts plus open permits within the cap |
| Budget.BudgetBoundsAttempts | src/hermes_life_bridge/retry_engine.py:202-216 | the budget bounds the attempts of a row |
| ContactTheorems.AtMostOneSend | src/hermes_life_bridge/contact_service.py:394-422 | in every run of any number of workers, crashes, sweeps and reconciliations, no contact key is sent twice |
| ContactTheorems.DryRunNeverSends | src/hermes_life_bridge/contact_service.py:363-383 | with delivery disabled the sender is never called |
| ContactTheorems.ContactsAreNeverRetried | src/hermes_life_bridge/retry_engine.py:186-189 | contact rows are attempted at most once and never reach RETRY_WAIT or EXHAUSTED |
| ContactTheorems.CompletedIsBacked | src/hermes_life_bridge/contact_service.py:525-535 | a COMPLETED contact always has a durable delivered receipt or a delivered reconciliation, crashes anywhere |
| ContactTheorems.ReceiptsAreAttested | src/hermes_life_bridge/contact_service.py:227-255 | with delivery enabled every stored and every returned receipt of any run is a delivered one, and its provider id is that of an accepted send for the key or of the stored delivered reconciliation (the stand-in only for an empty one) |
| ContactTheorems.UnknownLeavesOnEvidence | src/hermes_life_bridge/contact_reconciliation.py:103-128 | a contact leaves DELIVERY_UNKNOWN only for COMPLETED on durable delivery evidence, or FAILED_SAFE on stored non-delivery or a sender proving no invocation |
| ContactTheorems.CompletedIsAnswered | src/hermes_life_bridge/contact_service.py:279-298 | if calls for one key never overlap, no call ever raises the receipt-unavailable error |
| ContactTheorems.UnavailableExactlyWhen | src/hermes_life_bridge/contact_service.py:286-298 | the receipt-unavailable error is raised exactly on a completed row whose reconciliation is not a delivery |
| ContactTheorems.CompletedCanAlwaysBeAnswered | src/hermes_life_bridge/contact_service.py:345-355 | from any reachable state an undisturbed call on a completed key returns the cached receipt, else one with the recorded provider id, which it stores; no send, no row moves, and the provider id is on record |
| ContactTheorems.OverlapGoesUnanswered | src/hermes_life_bridge/contact_service.py:325-355 | a concrete run of two overlapping calls in which the second raises receipt-unavailable though the contact was delivered |
| ContactTheorems.FreshSolo | src/hermes_life_bridge/contact_service.py:385-557 | a call left alone on a new key sends once, completes the row and returns the stored receipt |
| ContactAnswers.UnusedSolo | src/hermes_life_bridge/contact_service.py:325-557 | the whole answer to a lone call for a key never used, for every reply of the sender and every word of the probe: receipt or error, the row with its times, codes and outcome, the records and the one send |
| ContactTheorems.SoloIsRun | src/hermes_life_bridge/contact_service.py:325-557 | a call left alone is a run of the protocol |
| ContactSafety.RunKeeps | src/hermes_life_bridge/contact_service.py:325-600 | the contact invariant (one send per key, one attempt per row, evidence behind completions, what each worker place knows) holds in every run |
| ContactSafety.StepKeeps | src/hermes_life_bridge/contact_service.py:325-557 | every single read, commit or send of any worker keeps that invariant, and the durable state only moves forward |
| ContactService.ContactStore.Reserve | src/hermes_life_bridge/contact_store.py:126-152 | insert-or-ignore of the request hash; a different stored hash is refused |
| ContactService.ContactStore.SaveReconciliation | src/hermes_life_bridge/contact_store.py:206-244 | write-once: the first record stays and a different one is refused, and so is one that is inconclusive, malformed or not canonical |
| ContactService.ContactService.CollectEvidence | src/hermes_life_bridge/contact_reconciliation.py:79-101 | the delivered receipt, else the stored record, else the probe decides; a conclusive valid canonical probe is stored, and older records stay |
| ContactService.ContactService.Reconcile | src/hermes_life_bridge/contact_reconciliation.py:103-128 | on the evidence the receipt, the record or the probe gives, the unknown contact completes or fails safe; without conclusive evidence, or on any other row, nothing moves |
| ContactService.ContactService.PrepareExisting | src/hermes_life_bridge/contact_service.py:279-323 | completed: the receipt with the recorded provider id, or receipt-unavailable; unknown: reconciled on the evidence; in flight, exhausted, failed, waiting or tried before: its own error, and nothing moves; only a prepared row never tried may be sent |
| ContactService.ContactService.Attempt | src/hermes_life_bridge/contact_service.py:394-557 | one send, answered by the next input: accepted is stored and completes the row, failed-safe fails it and asks for a fresh decision, unknown is reconciled on the evidence |
| ContactService.ContactService.Process | src/hermes_life_bridge/contact_service.py:325-557 | a solo execution of the step system; and said directly, the answer and the tables for a cached receipt, a conflict, a dry run, every state of an existing row, and an unused key |
| ContactService.ContactService.RecoverStartup | src/hermes_life_bridge/contact_service.py:559-600 | runs once and sends nothing; every in-flight contact ends completed, failed safe or unknown as its receipt, its record or a probe asked during the recovery says, none stays in flight, no other row moves, and the counts are those of the contacts found, settled and unknown |
| ContactService.ProcessReplays | src/hermes_life_bridge/contact_service.py:325-557 | so each finished call extends a run of the protocol, and the promises about runs hold of it |
| PerceptTheorems.NoPerceptIsLost | src/hermes_life_bridge/percept_delivery.py:93-179 | every reserved percept that is not completed and was never purged still has its envelope, the first one reserved |
| PerceptTheorems.FirstEnvelopeStays | src/hermes_life_bridge/operation_store.py:234-279 | no step replaces the first envelope of a percept |
| PerceptTheorems.SendsTheFirstEnvelope | src/hermes_life_bridge/percept_delivery.py:124-129 | what a worker is about to send is that first envelope |
| PerceptTheorems.CompletedIsAcknowledged | src/hermes_life_bridge/percept_delivery.py:132-142 | COMPLETED means the Runtime answered ok for that key |
| PerceptTheorems.PayloadMissingMeansPurged | src/hermes_life_bridge/operation_store.py:247-255 | the payload-missing corruption error needs a row deleted by maintenance before; without purging it is unreachable |
| PerceptTheorems.NothingToLoad | src/hermes_life_bridge/percept_delivery.py:124-126 | a worker finds no payload only on a completed or once purged percept |
| PerceptTheorems.ExhaustedIsSpent | src/hermes_life_bridge/retry_engine.py:202-207 | EXHAUSTED implies attempt >= max_attempts, or that the policy grants no retry, on every row never purged |
| PerceptTheorems.AttemptsAreBounded | src/hermes_life_bridge/retry_engine.py:178-216 | with W racing workers attempt <= max_attempts + W - 1 |
| PerceptRaces.CapIsReached | src/hermes_life_bridge/retry_engine.py:178-216 | for every W some run reaches that bound exactly |
| PerceptRaces.MaxHoldsIff | src/hermes_life_bridge/retry_engine.py:202-216 | max_attempts itself bounds the attempts exactly when there is one worker or the policy grants no retry |
| PerceptRaces.LateClearLoses | src/hermes_life_bridge/percept_delivery.py:141-142 | a completed percept purged and resubmitted before its first worker clears the outbox loses its envelope |
| PerceptRaces.NeverLosesIff | src/hermes_life_bridge/operation_store.py:666-712 | a percept is never lost exactly when maintenance never deletes its completed row before its worker has cleared the outbox |
| PerceptSafety.RunKeeps | src/hermes_life_bridge/percept_delivery.py:67-179 | the percept invariant holds in every run of submits, attempts, pumps, crashes and purges |
| PerceptExecutor.PerceptReliabilityExecutor.Submit | src/hermes_life_bridge/percept_delivery.py:67-72 | reserve, then attempt, raising only on a refused reservation; a new percept is sent at once and answered ok exactly when the Runtime says ok |
| PerceptExecutor.PerceptReliabilityExecutor.Attempt | src/hermes_life_bridge/percept_delivery.py:93-143 | the answer for every state of the row; a prepared or due one is sent once with its stored envelope, is completed and cleared exactly when the Runtime answers that call ok, and is otherwise failed with its code and scheduled or exhausted at the times read in this call |
| PerceptExecutor.PerceptReliabilityExecutor.ScheduleFailed | src/hermes_life_bridge/percept_delivery.py:74-91 | an interrupted percept is failed safe and scheduled, a failed one scheduled, each at its own reading of the clock; exhausted exactly when its attempts are used up; a row that is gone or was moved on stays, with its own answer |
| PerceptExecutor.PerceptReliabilityExecutor.CheckDue | src/hermes_life_bridge/percept_delivery.py:109-114 | a waiting percept is listed exactly if it is among the first hundred due percepts |
| PerceptExecutor.PerceptReliabilityExecutor.Pump | src/hermes_life_bridge/percept_delivery.py:145-179 | recovers all in-flight percepts, reschedules the oldest failed and releases the first due within the limit, then sends each prepared percept among the first limit outbox ids exactly once, in that order, completing exactly those the Runtime acknowledged, and counts how each ended; a bad limit is refused only after the recovery; in all a run of the step system |
| PerceptAnswers.OkIsAcknowledged | src/hermes_life_bridge/percept_delivery.py:124-143 | a delivery is answered ok, and its row completed, exactly when the envelope was there and the Runtime said ok to it; else the row waits or is exhausted |
| PerceptAnswers.NewIsTried | src/hermes_life_bridge/percept_delivery.py:67-72 | a percept nobody has seen is reserved with its envelope and delivered at once |
| PerceptExecutor.ReplaysJob | src/hermes_life_bridge/percept_delivery.py:93-179 | a finished job of one worker extends a run |
| PerceptExecutor.ResumeCarries | src/hermes_life_bridge/retry_engine.py:361-381 | recovering one interrupted percept is a run of one worker |
| RetryEngine.ScheduleMeans | src/hermes_life_bridge/retry_engine.py:170-216 | a failed percept or cognition ends completed exactly on an accepted receipt, exhausted exactly when its attempts are used up, else waits within the backoff; a contact stays |
| RetryEngine.ResumedMeans | src/hermes_life_bridge/retry_engine.py:361-427 | the same for an operation a sweep finds in flight; none stays in flight |
| RetryEngine.ReleaseMeans | src/hermes_life_bridge/retry_engine.py:274-323 | a released operation is ready, or completed exactly on an accepted receipt, at the time of the call and with its attempts kept; a contact stays |
| RetryEngine.BeginMeans | src/hermes_life_bridge/retry_engine.py:325-359 | when begin_attempt refuses and why; otherwise the row starts its next attempt, or is completed exactly on a receipt accepted after an earlier one |
| RetryEngine.DefaultsAreGood | src/hermes_life_bridge/retry_engine.py:141-165 | the default policies pass every check of the constructor |
| RetryEngine.RetryEngine.ScheduleFailedSafe | src/hermes_life_bridge/retry_engine.py:170-216 | the class policy applied to one durable failed row, or a refusal that changes nothing |
| RetryEngine.RetryEngine.SchedulePendingFailedSafe | src/hermes_life_bridge/retry_engine.py:218-250 | exactly the first limit failed rows of a class by (created, id) are scheduled, and nothing else changes |
| RetryEngine.RetryEngine.DueOperations | src/hermes_life_bridge/retry_engine.py:252-272 | exactly the rows with fewer than limit due rows of their class before them by (due, id), in that order |
| RetryEngine.RetryEngine.ReleaseDue | src/hermes_life_bridge/retry_engine.py:274-323 | exactly the first limit due rows by (due, id) move, each to PREPARED or on an accepted receipt to COMPLETED; contacts never move |
| RetryEngine.RetryEngine.BeginAttempt | src/hermes_life_bridge/retry_engine.py:325-359 | a prepared row starts, or is completed by a receipt found after an earlier attempt; a tried contact is refused |
| RetryEngine.RetryEngine.RecoverInterruptedPercept | src/hermes_life_bridge/retry_engine.py:361-381 | every interrupted percept is failed safe and scheduled, all others stay; a policy that asks for receipts raises once the oldest was failed safe |
| RetryEngine.RetryEngine.RecoverInterruptedCognition | src/hermes_life_bridge/retry_engine.py:383-427 | every interrupted cognition is completed on its receipt or failed safe and scheduled, all others stay, and each result tells what became of one of them |
| CognitionProtocol.ReplaceKeepsKeysIff | src/hermes_life_bridge/cognition_store.py:75-81 | saving a receipt drops no other key exactly when its task id is not another key's |
| CognitionTheorems.CompletedIsBacked | src/hermes_life_bridge/cognition_service.py:253-262 | in every run of racing services, sweeps and late completions a COMPLETED cognition has a stored receipt for its key |
| CognitionTheorems.ReceiptsStay | src/hermes_life_bridge/cognition_store.py:75-81 | a key that has a receipt keeps one |
| CognitionTheorems.AnswersAreStored | src/hermes_life_bridge/cognition_service.py:132-272 | process answers only with a receipt for its key, and one is stored |
| CognitionTheorems.NoReceiptIsMissing | src/hermes_life_bridge/cognition_service.py:90-95 | the completed-receipt-missing error is unreachable |
| CognitionTheorems.ExhaustedIsSpent | src/hermes_life_bridge/retry_engine.py:202-207 | EXHAUSTED implies attempt >= max_attempts, or that the policy grants no retry, on every row never purged |
| CognitionTheorems.CallsAreBounded | src/hermes_life_bridge/retry_engine.py:178-216 | with W racing workers attempt <= max_attempts + W - 1, and unless purged the API is called at most once an attempt |
| CognitionTheorems.OneWorkerStaysInBudget | src/hermes_life_bridge/retry_engine.py:178-216 | in every run of one worker no row is promised more attempts than max_attempts, so the bound of process holds there |
| CognitionReuse.FreshKeyIsAnswered | src/hermes_life_bridge/cognition_service.py:132-272 | a call left alone on a new key calls the API once, stores its output and completes the row |
| CognitionReuse.ReuseDropsReceipt | src/hermes_life_bridge/cognition_store.py:60-81 | two tasks with one id and two keys: the second receipt drops the first, leaving a completed row without receipt |
| CognitionReuse.AlwaysBackedIff | src/hermes_life_bridge/cognition_store.py:34-39 | completions stay backed in all runs over the allowed tasks exactly when no two of them share a task id under different keys |
| CognitionSafety.RunKeeps | src/hermes_life_bridge/cognition_service.py:90-297 | the cognition invariant holds in every run in which task ids and keys correspond |
| CognitionSafety.SaveIsGood | src/hermes_life_bridge/cognition_service.py:253-255 | the receipt saved before the completion keeps every other completion backed |
| CognitionService.CognitionStore.GetReceipt | src/hermes_life_bridge/cognition_store.py:48-58 | the one stored receipt of a key, if any |
| CognitionService.CognitionStore.ReserveTask | src/hermes_life_bridge/cognition_store.py:60-73 | insert-or-ignore by task id and key; another request hash stored for the key is refused |
| CognitionService.CognitionStore.SaveReceipt | src/hermes_life_bridge/cognition_store.py:75-81 | insert-or-replace keeps one receipt a key |
| CognitionService.CognitionService.PrepareOperation | src/hermes_life_bridge/cognition_service.py:90-130 | each state of the row gets its answer, or the row is prepared with its attempts unchanged; without a receipt it leads to exactly the answer that state calls for, a waiting row being ready exactly if it is among the first hundred due |
| CognitionService.CognitionService.Attempt | src/hermes_life_bridge/cognition_service.py:175-272 | without a receipt the API is called once and its reply decides: an answer is stored, returned and completes the row; an error fails it and makes it ready again, or exhausts it, at the times read in this call |
| CognitionService.CognitionService.Loop | src/hermes_life_bridge/cognition_service.py:156-272 | the loop terminates and calls the API at most max_attempts - attempt times, once more only on a ready row that racing schedulers took past its budget, and never on a row in flight, exhausted or failed with no attempts left |
| CognitionService.CognitionService.Process | src/hermes_life_bridge/cognition_service.py:132-272 | a solo execution of the step system; a stored receipt is returned and nothing moves; a new task is answered exactly if one of its first max_attempts replies is an answer, with that output stored and the row completed, and else ends exhausted with retry-exhausted; the API is called at most max_attempts - attempt times on a row no other scheduler raced on |
| CognitionAnswers.AnsweredIff | src/hermes_life_bridge/cognition_service.py:156-272 | the loop gives a receipt exactly if one of the calls the policy allows is answered, the receipt stored under the task with the key of the task; otherwise retry-exhausted |
| CognitionAnswers.NewIsComputed | src/hermes_life_bridge/cognition_service.py:132-272 | a task nobody has seen is reserved and computed at once, with max_attempts calls allowed |
| CognitionService.CognitionService.RecoverStartup | src/hermes_life_bridge/cognition_service.py:274-297 | runs once, as a run of the step system; every interrupted cognition is completed on its receipt or failed safe and scheduled, and counted by how it ended |
| CognitionService.RecoveryReaches | src/hermes_life_bridge/retry_engine.py:383-427 | recovering one interrupted cognition is a solo execution of the step system |
| CognitionService.AllRecoveriesReplay | src/hermes_life_bridge/retry_engine.py:383-427 | recovering any set of them, one after the other, is a run of the step system |
| CognitionService.SweepReaches | src/hermes_life_bridge/retry_engine.py:274-323 | release_due over any set of due cognitions is a solo execution of the step system |
| BridgePromises.PromisesHoldTogether | src/hermes_life_bridge/operation_store.py:36-44 | with all three services on one operation table, in every run: contact keys are sent once, contacts are tried at most once, never retried nor exhausted, completions are backed, unpurged percepts keep their first envelope, EXHAUSTED means spent, attempts stay within max_attempts + W - 1 for the workers of each class, unpurged cognitions cost at most one API call an attempt, answers are stored and no receipt is missing |
| BridgePromises.UnknownLeavesOnEvidence | src/hermes_life_bridge/contact_reconciliation.py:103-128 | there too a contact leaves DELIVERY_UNKNOWN only on evidence, whichever service moves |
| BridgePromises.CompletedIsAnswered | src/hermes_life_bridge/contact_service.py:279-298 | there too no call raises receipt-unavailable if calls for one key never overlap |
| BridgePromises.RunInBudget | src/hermes_life_bridge/retry_engine.py:178-216 | the percept and the cognition budget hold together on the shared table, in every interleaving |
| BridgeSystem.RunKeeps | src/hermes_life_bridge/operation_store.py:36-44 | the three invariants hold together in every interleaving |
| WorkHistory.FateByPositions | src/hermes_life_bridge/work_store.py:461-522 | candidate exactly when selected with an activity before acceptance and none between, suppressed exactly when selected with none at all, invalidated exactly when an activity comes first, waiting otherwise |
| WorkHistory.SelectedOnce | src/hermes_life_bridge/work_store.py:491-497 | no fact is returned by two calls |
| WorkHistory.WaitingIsUndisturbed | src/hermes_life_bridge/work_store.py:382-438 | a waiting fact has seen no activity of its session since it was accepted |
| WorkHistory.HeadIsSelected | src/hermes_life_bridge/work_store.py:464-472 | selection by counting what is ahead is selection of the head of the queue by (due, id) |
| WorkHistory.BatchTakesHead | src/hermes_life_bridge/work_store.py:464-522 | a batch takes exactly min(limit, n) due facts and leaves the rest due |
| WorkHistory.DrainedAfter | src/hermes_life_bridge/work_store.py:464-522 | repeated batches at one time empty the due set after exactly ceil(n / limit) calls |
| WorkStore.Store.Accept | src/hermes_life_bridge/work_store.py:245-380 | a new, repeated, conflicting or out-of-range fact is answered as the list of calls says, and the four tables stay a function of that list |
| WorkStore.Store.NoteActivity | src/hermes_life_bridge/work_store.py:382-448 | the epoch is the number of activities of the session, every waiting fact of it is invalidated and counted, and the tables and daily metrics stay what the list of calls makes them |
| WorkStore.Store.EvaluateDue | src/hermes_life_bridge/work_store.py:450-527 | the overdue facts by (deadline, id) up to the limit, one left out only for limit sooner ones, each with the fate the list of calls gives it; the day of the batch counts its verdicts by fate and no other cell of the metrics moves; the epoch-mismatch branch is unreachable |
| WorkStore.FitAfterAccept | src/hermes_life_bridge/work_store.py:305-367 | a new fact enters ledger and outbox at its session's epoch, with its metric |
| WorkStore.FitAfterActivity | src/hermes_life_bridge/work_store.py:389-437 | an activity moves epoch, last activity, ledger, outbox and metrics as the list of calls says |
| WorkStore.FitAfterBatch | src/hermes_life_bridge/work_store.py:473-512 | so does a batch |
| WorkStore.DailyBatch | src/hermes_life_bridge/work_store.py:231-243 | after a batch each cell (day, name) still is the number of calls or settled facts that count for the name on that day |
| WorkStore.HeadIsRight | src/hermes_life_bridge/work_store.py:464-472 | the batch query returns the overdue facts in order of deadline and id, and leaves one only for limit sooner ones |
| WorkMetrics.DailyActivity | src/hermes_life_bridge/work_store.py:231-243 | the same law after an activity: itself, and the facts it invalidates, on its day |
| WorkMetrics.DailyOnce | src/hermes_life_bridge/work_store.py:231-243 | and after an accepted or a repeated fact, on the day it was observed |
| WorkMetrics.SettledBy | src/hermes_life_bridge/work_store.py:389-512 | what settles a waiting fact: an activity of its session, or the batch that selects it, with the verdict by the activities before its acceptance |
| WorkMetrics.SettledOnce | src/hermes_life_bridge/work_store.py:389-512 | each fact is settled by one call at most, with the fate it keeps |
| WorkStore.WaitingMatchesEpoch | src/hermes_life_bridge/work_store.py:473-490 | a waiting fact finds its session's epoch row at the epoch it was accepted, and an observer exactly from epoch 1 on |
| WorkStore.FactsAreConserved | src/hermes_life_bridge/work_store.py:231-243 | summed over dates, accepted = ledger rows = waiting + invalidated + suppressed + candidates, each metric counting the calls with that fate; activity = sum of the session epochs, each the number of its activities |
| Trace.KilledRunsAreSound | src/hermes_life_bridge/trace.py:72-146 | killed between any two file operations, any number of times, the files read as a suffix of everything emitted, each within the limit or of one record |
| Trace.RotationShifts | src/hermes_life_bridge/trace.py:72-86 | a rotation overwrites nothing and moves every file up by one, dropping only the oldest |
| Trace.ChunksAreGreedy | src/hermes_life_bridge/trace.py:127-146 | a chunk is closed only because the next record did not fit it |
| Trace.EmitPacks | src/hermes_life_bridge/trace.py:127-146 | undisturbed, the files are the newest backup_count + 1 chunks of a greedy packing of everything emitted, so backups are .1 to .k |
| Trace.NewestReads | src/hermes_life_bridge/trace.py:148-163 | and read oldest first they are those chunks, whole |
| Trace.BridgeTracer.Rotate | src/hermes_life_bridge/trace.py:72-86 | the descending loop performs exactly the operations of a rotation |
| Trace.BridgeTracer.Emit | src/hermes_life_bridge/trace.py:88-146 | emit appends its record and keeps both descriptions of the files |
| Trace.BridgeTracer.Tail | src/hermes_life_bridge/trace.py:148-171 | the last min(n, retained) records, a suffix of everything emitted |
| EvidenceRegistry.HeldLater | src/hermes_life_bridge/work_producer.py:319-332 | with a clock that never goes back, pruning removes exactly a prefix of the contexts in order of latest observation |
| EvidenceRegistry.HeldObserves | src/hermes_life_bridge/work_producer.py:278-282 | observing moves the context to the end and drops the first while there are too many |
| EvidenceRegistry.HeldIff | src/hermes_life_bridge/work_producer.py:247-332 | a context is held exactly if it was observed within the age limit and fewer than the allowed number of other contexts were observed since |
| EvidenceRegistry.WindowIsFresh | src/hermes_life_bridge/work_producer.py:319-332 | a bucket runs empty exactly when its newest evidence is stale |
| EvidenceRegistry.WindowIsFreshPart | src/hermes_life_bridge/work_producer.py:247-283 | a bucket is the fresh part of the last max_per_context observations since the context was last dropped |
| EvidenceRegistry.Registry.Prune | src/hermes_life_bridge/work_producer.py:319-332 | the registry shows the same history at the later time |
| EvidenceRegistry.Registry.Observe | src/hermes_life_bridge/work_producer.py:247-283 | ignored calls change nothing; any other adds one observation to the history the registry shows |
| EvidenceRegistry.Registry.Select | src/hermes_life_bridge/work_producer.py:285-310 | the newest count items of the window whose status the event type asks for, in order, every such item left out standing before them; insufficient exactly when there are fewer |

## Left out

- SQLite, WAL, VACUUM, pragmas, locks, file modes, schema creation and migration: each transaction, and each single-statement write, is one atomic step on maps.
- Sockets, HTTP, subprocesses, asyncio, the command line, configuration, health checks and discovery: the sender, the Hermes API and the Runtime are environments that may answer anything.
- SHA-256 and name-based identifiers are uninterpreted: request hashes are given, operation ids are injective constructors, and receipt ids are not modelled.
- Text of timestamps: parsing, formatting and microsecond rounding of operation times; `NonBlank` knows ASCII white space only.
- Validation of tasks, intents, decisions, work facts and declarations, target allowlists, route freshness and privacy redaction: single-branch checks before the modelled code.
- Trace events emitted by the services, and the encoding of a trace record: a record is a text with a positive size; a record killed half-written is not modelled, nor one whose text holds U+0085, U+2028 or U+2029, which the tail reads as a line break and drops.
- The exact error texts: failures are constructors, the two error codes of an unknown send outcome are one, and so are the stand-ins `hlb-receipt:<receipt id>` for an empty provider id. The restart code of a percept attempt that was already failed safe is always the default one.
- `list_operations`, `due_operations` and the listing calls without a class filter: the services always pass one.
- `reason` and `updated_at` of the work tables, which no decision reads; the reason is a function of the state.
- `get_by_idempotency`, the read-only queries of the work store and `snapshot_metadata`: lookups that decide nothing.
- Whether a waiting percept is eventually sent: the pump looks only at the head of the outbox, so a claim of progress would be false.
- A change of `contact_delivery_enabled` within a run, and contact rows written by versions that still retried contacts.
- PerceptProtocol runs begin a pump item from any listing, fresh or stale, and decide whether a due row is listed by the environment: more runs than the code has, so what holds in all of them holds in the code.
- In the step systems a purge may select any terminal row, whatever its age: the age is part of `OperationStore.Store.PurgeTerminal` only.
- PerceptExecutor.PerceptReliabilityExecutor.Pump: assumes a percept policy that does not ask for receipt reconciliation; on one that does the engine refuses to schedule, as `RetryEngine.RetryEngine.RecoverInterruptedPercept` says, and no such policy exists.
- EvidenceRegistry.Registry.Observe: does not cover a registry that keeps no evidence per context or has a negative age limit; the status is given already normalised.
- CognitionTheorems.CompletedIsBacked: assumes that no two accepted tasks share a task id under different keys; `CognitionReuse.AlwaysBackedIff` shows that this is exactly what is needed.
- PerceptTheorems.NoPerceptIsLost: speaks of percepts whose id maintenance never deleted; `PerceptRaces.NeverLosesIff` gives the exact condition for an envelope to be there at all, deleted and resubmitted ids included.
- CognitionService.CognitionService.Loop: max_attempts - attempt bounds the calls on a row within one scheduler's budget; a ready row that racing schedulers took past it costs one call more, because the code calls before it checks.
