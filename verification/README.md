# A verified model of the after-sales agent's money paths and protocols

The repository is a multi-tenant customer-service agent that executes approved refunds, returns and address
changes against an external funds gateway. This project models the parts whose correctness is not visible from any
one function, and proves it with Dafny 4.11. `dafny verify dfyconfig.toml` checks everything.

* **The execution protocol, run sequentially.** `ExecutionTypes`, `CallbackPlan`, `MemoryStore`, `Gateway`,
  `ExecutionEffects`, `EngineSpec`, `Listings`, `ReconcileSweep`, `Outcomes`, `Engine`, `EngineRuns`: the 12-status table, the pure
  callback plan, the in-memory store with its indexes, the first-writer-wins ledger behind a network that loses
  requests or replies, and the engine itself as a class whose every method is tied to what it does to store, ledger and
  caller. The invariant `ExecutionEffects.Consistent` says what every completed `execute`, `apply_callback` and `reconcile`
  keeps: one story told by record, operation and ledger; `EngineRuns` draws the consequences for whole runs. `Outcomes`
  says what each call comes to by wire words, ledger rows and amounts alone, and the engine's methods promise that too.
* **The same protocol, interleaved.** `Interleaving`, `Reversals` and `Alone`: any number of threads on one operation, switching
  at every store call and provider call. One result holds everywhere (at most one submission); four hold in exactly
  the environments named (writes along the table, operation and record agree, at most one reversal, no confirmed
  record whose money was asked back), with a concrete run for every way out of them. A thread that nobody disturbs
  comes to what the completed call does (`Alone`).
* **The SQL backends.** `SqlBackend`: rows, keyed updates and row counts, against the in-memory store.
* **The conversation.** `ApprovalGraph` (nothing executes without its own approval, over any number of turns, also with
  changes between the steps of the execute node, and behind each approval there is somebody's yes) and `RagGraph` (the
  retrieval loop ends, and ends verified or in an error exactly when no exception leaves a node; which round and which
  draft it answers with).
* **Small stateful algorithms.** `LoginRateLimit`, `Breaker`, `SseFraming`, `SseChannel` with `IdWindow`,
  `Histogram`, `OperationKeys`.

What the source updates in place is a class here and its methods are proved against functions on values
(`Commit`, `Swept`, `Handled`, `AfterCall`, `EstimateOf`, ...); the theorems are about those functions. A `real` stands for
a float, an id is a string, and wire statuses and audit actions are enumerations of the source's strings.
Clock readings, fresh ids, provider answers, faults, model output and resume values are parameters, quantified over.

## Where the code does less than its comments say

Each of these follows from the members named.

* `list_reconciliation_targets` says that the limit never drops an overdue record. It keeps all records it finds
  overdue if and only if these alone fit the limit (`Engine.ExecutionEngine.ListReconciliationTargets`); `reconcile`
  makes up for it by a second listing, as long as that finds at most 5000 overdue records
  (`Listings.OverdueAreTaken`).
* `compensate` reverses the money before it checks that the move is legal. On a store in order it leaves store and
  ledger in order exactly when it replays, or when the request never arrives
  (`EngineSpec.CompensateKeepsOrderExactlyOnReplay`).
* Only the write of SUBMITTED is a compare-and-set. The table is followed in every interleaving exactly in the
  environments of `Interleaving.Safe`; a handoff to a human can be overwritten on the operation outside
  `Interleaving.Truthful`; a reversal can be requested twice outside `Reversals.Single`; and outside
  `Reversals.Decided` a record can end CONFIRMED although its money was asked back: by two sweeps that get different
  answers about an accepted submission, or, with a provider that always gives one answer, by a sweep and a callback
  that reports failure (`Reversals.OneAnswerKeepsConfirmed`).
* A replayed `execute` promises the existing result. It repeats the first answer exactly for submitted, confirmed
  and uncertain executions; after a compensation it loses the reversal receipt, and after a failed one it no longer
  reports the handoff to a human (`EngineSpec.ReplayRepeatsFirstAnswer`).
* `FAILED_UNCERTAIN` has no external id, so `reconcile` can only mark it a mismatch
  (`ExecutionEffects.ReconcileComesToRest`); and a record found in
  `RECONCILING` that the provider reports failed goes to `HUMAN_HANDOFF` but is counted as reconciled
  (`ReconcileSweep.VerdictsMatchEndings`).
* A probe that `_chat` reports to nobody shuts the breaker for good (`Breaker.WedgedExactlyByUnreportedProbe`,
  `Breaker.WedgedForever`): one whose content is not text, or one that ends in an exception which is not caught, such as
  the TypeError of a 200 reply that is a JSON list (`Breaker.RepliesByShape`, `Breaker.ListReplyWedges`) or an httpx
  error that is no transport error.
* `make_rag_graph` says that any retrieval or model exception ends in an error that goes to a human. Only the retrieval
  does. Rewriting, generating and checking catch `LLMError` alone, grading catches nothing (the self-hosted adapter
  grades without the model), and any other exception leaves the graph: this happens exactly when some visit meets one
  (`RagGraph.AbortedExactlyByUncaught`).
* The execute node does not execute a rejected or handed-off operation, but goes by the operation as it read it before
  the approval. Another approval of the same operation may expire or be rejected in between, and the engine is called
  all the same (`ApprovalGraph.CalledOperationWasOpen`, `ApprovalGraph.HandedOffOperationIsCalled`).
* `generate_operation_key` calls its keys unique within the tenant, and they are. Two tenants can meet in one key if and
  only if one tenant's id continues, after the other's and a colon, with an order id
  (`OperationKeys.TenantsMeetExactlyWhenExtending`).
* The quantile estimate takes a lone bound for the width of the unbounded bucket, so that bound must be positive to
  share the bucket of the true order statistic, and not negative to be monotone in q
  (`Histogram.LoneBoundMustBePositive`, `Histogram.LoneNegativeBoundFalls`).
* SQLite reports a claim on another tenant's record as lost, the other two backends as missing; and the in-memory
  store touches `updated_at` on callbacks that change nothing (`SqlBackend.BackendsDifferOnlyInTouch`).
* The channel's 512-id window repeats events when resumed from a cursor more than 512 events behind
  (`SseChannel.OldCursorIsHarmlessWithinWindow`).
* A login limit below one still lets the first attempt of every key through, so the bound is the limit or one
  (`LoginRateLimit.EveryWindowBounded`).

## Model

| member | source | states |
|---|---|---|
| ExecutionTypes.TerminalExactlyClosed | src/execution/types.py:58-104 | The six documented terminal statuses are exactly those the table lets nothing leave. |
| ExecutionTypes.StatusChangesAtMostFiveTimes | src/execution/types.py:58-114 | No history along the table changes status more than five times or returns to a status; five is reached. |
| CallbackPlan.PlannedMoveIsLegal | src/infrastructure/store.py:94-151 | Every status a callback plans is a legal move from the current one, is booked, and carries its operation update; a plan without a move stamps nothing. |
| CallbackPlan.AnyCallbackSequence | src/infrastructure/store.py:94-151 | Any callbacks, any nonces and amounts: the history follows the table, audit rows equal status changes, at most two of them, at most one callback is applied. |
| CallbackPlan.TerminalRecordIsClosed | src/infrastructure/store.py:97-99 | A terminal record is unchanged by any sequence of callbacks. |
| CallbackPlan.RedeliveryIsHarmless | src/infrastructure/store.py:93-96 | The same callback delivered again any number of times has the effect of one delivery. |
| MemoryStore.IndexesAgreeWithScan | src/infrastructure/store.py:307-322 | A lookup through an index returns what a scan of all rows returns; no two rows share a key. |
| MemoryStore.TenantRecordsExact | src/infrastructure/store.py:541-550 | A listing holds exactly the tenant's records, each once. |
| MemoryStore.TenantRecordsInOrder | src/infrastructure/store.py:541-550 | In a listing records come in the order of their insertion. |
| MemoryStore.MemoryStore.CreateOperation | src/infrastructure/store.py:307-322 | One operation per (tenant, key): a second call returns the first operation and changes nothing. |
| MemoryStore.MemoryStore.CreateExecutionRecord | src/infrastructure/store.py:489-505 | One execution per (tenant, operation): the one that is there, or a new one, appended last; indexes stay valid. |
| MemoryStore.MemoryStore.ClaimExecutionSubmit | src/infrastructure/store.py:507-527 | The claim succeeds exactly on a pending record with no attempts, and then sets attempts to 1. |
| MemoryStore.MemoryStore.UpdateExecutionRecord | src/infrastructure/store.py:552-569 | Missing, compare-and-set lost, or written: exactly which, and the state after each. |
| MemoryStore.MemoryStore.ListExecutionRecords | src/infrastructure/store.py:541-550 | The loop returns the tenant's records in insertion order. |
| MemoryStore.MemoryStore.ApplyCallbackAtomic | src/infrastructure/store.py:592-631 | Nonce, record, operation and audit row change together as the plan says, or nothing does. |
| MemoryStore.InsertKeepsValid | src/infrastructure/store.py:489-505 | Inserting under a free id and a free operation keeps every index a bijection. |
| Gateway.GatewayProvider.Submit | src/execution/sandbox_gateway.py:86-122 | First writer wins per (tenant, key): a row that is there stays and is the reply; a new one has this id, amount and status; a lost request writes nothing. |
| Gateway.GatewayProvider.Query | src/execution/sandbox_gateway.py:125-136 | Finds the tenant's row with that external id, or says there is none. |
| Gateway.GatewayProvider.Compensate | src/execution/sandbox_gateway.py:139-167 | One reversal row per (tenant, key, execution), repeated requests return the first receipt. |
| Gateway.RowsStand | src/execution/sandbox_gateway.py:86-167 | Whatever is requested afterwards, in whatever order, a transaction or reversal row that is there never changes. |
| Gateway.FirstSubmissionWins | src/execution/sandbox_gateway.py:107-122 | A new transaction row, with its id, amount and status, is that of the first submission under its key. |
| Gateway.FirstReversalWins | src/execution/sandbox_gateway.py:139-167 | A new reversal row carries the amount of the first request for that execution. |
| ExecutionEffects.StartsConsistent | src/execution/engine.py:76-82 | The empty store and ledger satisfy the invariant of completed calls. |
| ExecutionEffects.MoneyMovesOnce | src/execution/engine.py:259-296 | Conservation: at most one reversal per (tenant, key), only for a record compensated or whose compensation failed, of the same amount as its transaction, which is the record's; compensated implies reversed; submitted implies in the ledger; never both confirmed and reversed. |
| ExecutionEffects.KeysIdentify | src/infrastructure/store.py:489-505 | Two executions share neither an operation nor a ledger key. |
| ExecutionEffects.NothingBeforeExecution | src/execution/engine.py:98-114 | The ledger holds nothing for an operation that has no execution yet. |
| ExecutionEffects.ExecuteComesToRest | src/execution/engine.py:131-233 | A first execution ends at rest: SUBMITTED exactly on a healthy success, FAILED_UNCERTAIN exactly on a provider error, in the ledger exactly if the request arrived; only its own rows are added. |
| ExecutionEffects.SettleCloses | src/execution/engine.py:259-296 | Settling a failed dispatch ends terminal by a legal path, adds at most its own reversal, and hands off only from RECONCILING or COMPENSATING. |
| ExecutionEffects.ReconcileCloses | src/execution/engine.py:481-547 | Reconciling any open record ends it terminal by a legal path and leaves the transactions alone. |
| ExecutionEffects.ReconcileComesToRest | src/execution/engine.py:481-547 | An open record at rest is at rest again after reconciliation, with its operation and ledger rows; an uncertain one always ends a mismatch. |
| ExecutionEffects.CallbackComesToRest | src/execution/engine.py:377-398 | A callback, with the compensation it may trigger, brings a record at rest to rest. |
| ExecutionEffects.CommitKeepsConsistent | src/execution/engine.py:259-296 | Settling one record with its operation and its own rows leaves every other record as it was and the invariant intact. |
| ExecutionEffects.ReconcileIsLocal | src/execution/engine.py:481-547 | What one record is settled to depends on no other record's ledger rows. |
| EngineSpec.ExecuteKeepsOrder | src/execution/engine.py:88-129 | Every `execute`, first or replayed, keeps the invariant. |
| EngineSpec.CallbackKeepsOrder | src/execution/engine.py:353-398 | Every callback, valid or not, keeps the invariant. |
| EngineSpec.CompensateKeepsOrderExactlyOnReplay | src/execution/engine.py:301-334 | Manual compensation of a record at rest keeps the invariant if and only if it replays or its request is lost. |
| EngineSpec.ReplayRepeatsFirstAnswer | src/execution/engine.py:552-560 | A replay names the same execution, status and operation status; it is the first answer again if and only if the execution was submitted, confirmed or uncertain. |
| EngineSpec.ExecuteIgnoresTimes | src/execution/engine.py:88-233 | What an execution does to record and ledger does not depend on clock readings. |
| Listings.LimitDropsOverdueExactly | src/execution/engine.py:428-443 | Cutting overdue-then-others at the limit keeps every overdue record if and only if they alone fit it; stated of the listing itself by the method below. |
| Listings.PickedInOrder | src/execution/engine.py:417-443 | What is picked from a listing stays in the order of the listing. |
| Listings.OverdueFirstIsDistinct | src/execution/engine.py:438-443 | Although each record's deadline is read twice, nobody is listed twice: what is overdue at the first reading is so at the second. |
| Listings.TargetsExact | src/execution/engine.py:455-467 | The targets of a sweep are distinct open records, exactly those of the two listings. |
| Listings.TargetsCover | src/execution/engine.py:455-467 | The targets are at least 200 or all open records, also those whose deadline passes while the listings are made. |
| Listings.OverdueAreTaken | src/execution/engine.py:455-467 | Every record overdue at any of its own three readings is a target if and only if the general listing has those the overdue listing cuts off; so whenever that finds at most 5000. |
| ReconcileSweep.SweepCloses | src/execution/engine.py:445-479 | A sweep closes exactly its targets: the open records after it are those before it without them. |
| ReconcileSweep.SweptKeepsOrder | src/execution/engine.py:470-479 | A sweep, finished or not, keeps the invariant. |
| ReconcileSweep.VerdictsMatchEndings | src/execution/engine.py:470-547 | Each counter counts the records that ended in the statuses it stands for; none ends open. |
| ReconcileSweep.SweepEnds | src/execution/engine.py:445-479 | Each sweep leaves nothing open or closes at least 200 records. |
| ReconcileSweep.ReportKeepsTally | src/execution/engine.py:468-479 | The counters are the counts of the details and add up to the number scanned. |
| Outcomes.EffectIsDecided | src/execution/engine.py:481-547 | Which answer leads to which ending, over wire statuses by name: success confirms with the row's receipt, an explicit failure has the money asked back, anything else is a mismatch. |
| Outcomes.SweepIsDecided | src/execution/engine.py:470-527 | And so for each target of a sweep, against the ledger before it, with its operation and its entry in the report. |
| Outcomes.FailureIsSettled | src/execution/engine.py:259-296 | A failed dispatch closes COMPENSATED with a receipt for what the ledger holds if the reversal is answered or there is no provider, else COMPENSATION_FAILED; the reversal is there exactly if the request arrived. |
| Outcomes.ExecuteIsPlain | src/execution/engine.py:88-233 | One `execute` by order total, mode, faults and the gateway's row: identity, amount, ledger, ending, operation, audit rows and answer. |
| Outcomes.FirstAddsTheRow | src/execution/engine.py:160-180 | On a store in order the first live execution finds no row of its key and adds exactly one: the order's total for a refund, nothing for the other actions, with the gateway's status. |
| Outcomes.CallbackIsPlain | src/execution/engine.py:377-398 | One located callback by wire words, amounts and nonce: record, receipt, booked nonce, ledger, operation, audit rows and answer. |
| Outcomes.PlanIsPlain | src/infrastructure/store.py:94-151 | The reason of a plan, each in both directions: replay, mismatch, confirmation, failure, or only booked. |
| Outcomes.ClaimIsPlain | src/infrastructure/store.py:94-151 | The nonce a caller is told of is this one exactly if it is booked, or the record listens and has none. |
| Outcomes.CompensateIsPlain | src/execution/engine.py:301-334 | One manual compensation by the record's status, the fault and the ledger. |
| Engine.ExecutionEngine.Transition | src/execution/engine.py:570-594 | An unguarded illegal move raises and writes nothing; a guarded one that lost returns the stored record; else the stored record is patched and moved. |
| Engine.ExecutionEngine.IsOverdue | src/execution/engine.py:403-415 | Overdue if and only if SUBMITTED, with a submission time, and this very reading is more than the timeout after it. |
| Engine.ExecutionEngine.SettleAfterDispatchFailure | src/execution/engine.py:259-296 | One reversal row for the record's amount if the request arrives; COMPENSATED exactly if it is answered, else COMPENSATION_FAILED; from RECONCILING or COMPENSATING a handoff that moves no money; store, audit and times accordingly. |
| Engine.ExecutionEngine.Execute | src/execution/engine.py:88-129 | An existing execution is told again and nothing happens; a refund without a positive order total raises without a trace; else a record for exactly the order's total is confirmed in shadow mode, or that amount submitted and the gateway's row decides; on a store in order the first live refund adds the row (id, order total, gateway status) at (tenant, key); times are read during the call; the invariant is kept. |
| Engine.ExecutionEngine.RunShadow | src/execution/engine.py:131-158 | Shadow mode confirms at once, under a derived id and with a synthetic receipt for the record's amount, executes the operation, and leaves the ledger untouched. |
| Engine.ExecutionEngine.RunLive | src/execution/engine.py:160-233 | Without a provider it raises and changes nothing; without the claim it replays and changes nothing; with it exactly the record's amount is submitted once, and the row in the ledger decides how the record ends. |
| Engine.ExecutionEngine.MarkSubmitted | src/execution/engine.py:205-227 | A pending record is submitted; one already submitted keeps its record, has its operation updated and is reported with this call's transaction id and receipt; any other is left alone and replayed. |
| Engine.ExecutionEngine.ApplyCallback | src/execution/engine.py:353-398 | The five refusals change nothing; a located callback confirms, mismatches, has the money asked back, books its nonce or does nothing, exactly as wire words, amounts and nonce say, and operation, audit log and caller are told so; the invariant is kept. |
| Engine.ExecutionEngine.ListOverdueTargets | src/execution/engine.py:417-426 | The records overdue at their own readings, in order, cut at the limit; all of them if and only if they fit it. |
| Engine.ExecutionEngine.ListReconciliationTargets | src/execution/engine.py:428-443 | Records overdue at their own first reading, then the other open ones by a second, in order, cut at the limit; every overdue one is in it if and only if they alone fit it. |
| Engine.ExecutionEngine.CollectTargets | src/execution/engine.py:455-467 | The targets of three passes of readings: distinct, open, at least 200 or all, and, unless the last pass finds more than 5000, every record found overdue at any of its own readings. |
| Engine.ExecutionEngine.ReconcileOne | src/execution/engine.py:481-527 | CONFIRMED with that row's receipt and the ledger unchanged if and only if a healthy query finds the tenant's row with that id saying succeeded or success; reversed (the request in the ledger exactly if it arrived) if and only if it says failed or rejected; MISMATCHED otherwise, and from FAILED_DISPATCHED and RECONCILING what the table allows; operation, audit row and verdict accordingly. |
| Engine.ExecutionEngine.Reconcile | src/execution/engine.py:445-479 | Never raises for a tenant; the targets are those of its readings, every record found overdue at any of them included (up to 5000); each ends as the provider's answer about it decides, with operation and verdict, everything else unchanged, counters right, the invariant kept. |
| Engine.ExecutionEngine.ReconcileRepeatedly | src/execution/engine.py:445-479 | With no other activity, n open records are gone after ceil(n/200) sweeps. |
| Engine.ExecutionEngine.Compensate | src/execution/engine.py:301-334 | Not found, replay, or the money asked back first, whatever the status, and then the move if the table has it, else the error with the store unchanged. |
| EngineRuns.CallKeepsOrder | src/execution/engine.py:88-479 | Every completed call, whichever it is, keeps the invariant. |
| EngineRuns.CallAdvances | src/execution/engine.py:88-479 | A completed call leaves each record where it is or moves it along the table; a terminal record keeps everything but its clock fields. |
| EngineRuns.EveryRunConserves | src/execution/engine.py:88-479 | After any calls from the empty store, with a provider: six record statuses only, MISMATCHED and COMPENSATION_FAILED hand the operation off and the others execute it; transaction and reversal rows carry the record's amount; submitted means one attempt, a transaction id and a ledger row; uncertain means no id; compensated means reversed; a reversal belongs to one execution, compensated or failed to be; shadow mode leaves the ledger alone. |
| EngineRuns.TerminalIsForever | src/execution/engine.py:88-479 | Over any run records only descend the table, and a terminal record never changes again except in its clock fields. |
| Interleaving.SubmittedAtMostOnce | src/execution/engine.py:98-180 | In every interleaving of any threads in any environment: the provider is asked to submit at most once, no `execute` raises, all finished ones report the same execution. |
| Interleaving.OrderlyExactlyWhenSafe | src/execution/engine.py:570-594 | Every interleaving writes along the table, overwrites no terminal status and raises nowhere, if and only if no sweep runs, submissions are always accepted unless callbacks report nothing, and failure reports never meet differing amounts. |
| Interleaving.ToldExactlyWhenTruthful | src/execution/engine.py:205-233 | When all threads have returned, the operation's status always fits its record's if and only if no callback reports a failure, differing amounts occur only with a provider that always refuses, and sweeps run only with one that always accepts and answers that it is done. |
| Interleaving.ReportDecides | src/infrastructure/store.py:94-151 | What a callback reports decides the move it plans, and from FAILED_DISPATCHED only a differing amount moves the record. |
| Interleaving.StepKeepsOneSubmission | src/infrastructure/store.py:489-527 | Each step keeps: at most one thread past the claim, submissions at most the attempts, one identity. |
| Interleaving.StepKeepsSafe | src/execution/engine.py:205-296 | In a safe environment each step leaves every thread with only legal writes ahead of it, and one settler at most. |
| Interleaving.StepKeepsTruthful | src/execution/engine.py:205-233 | In a truthful environment what a thread is about to tell the operation is still so when it tells it. |
| Interleaving.SweepsCollide | src/execution/engine.py:445-547 | Two sweeps that listed one record both write it, against the table, whatever the provider answers them. |
| Interleaving.ReplyOverwritesCallback | src/execution/engine.py:182-233 | A submitter whose reply is not a success writes over what a callback has settled. |
| Interleaving.CompensationOverwritesMismatch | src/execution/engine.py:377-388 | A differing amount closes a record whose failed dispatch is being compensated; the compensation overwrites it. |
| Interleaving.LastWord | src/execution/engine.py:217-222 | A late submitter marks an operation executed that has been handed off. |
| Interleaving.SettlersCross | src/execution/engine.py:259-296 | Two threads settling one failed dispatch leave a compensated record under a handed-off operation. |
| Alone.ExecutesAlone | src/execution/engine.py:160-233 | An execution nobody disturbs submits once and ends as the reply decides; a reversal is requested exactly after a refusal. |
| Alone.ExecutionRefines | src/execution/engine.py:160-233 | Its steps come to the status of the completed call, for every fault and gateway status. |
| Alone.ReconcilesAlone | src/execution/engine.py:481-547 | A sweep nobody disturbs ends its record as the answer decides, and asks for the money back exactly on an explicit failure. |
| Alone.CallsBackAlone | src/execution/engine.py:353-398 | A callback nobody disturbs ends the record as wire words, amounts and nonce decide. |
| Reversals.OneReversalExactlyWhenSingle | src/execution/engine.py:259-296 | In every interleaving a reversal is requested at most once, if and only if no sweep can be told of a failure unless every submission is unclear, and no callback reports one unless every submission is accepted. |
| Reversals.ConfirmedIsKeptExactlyWhenDecided | src/execution/engine.py:377-547 | No interleaving ends with, or passes through, a CONFIRMED record whose money was asked back, if and only if, where a sweep may be told that an accepted submission is done, neither a query nor a callback tells of a failure, and unclear replies never meet callbacks of both kinds. |
| Reversals.OneAnswerKeepsConfirmed | src/execution/sandbox_gateway.py:125-136 | The same with a provider that answers every query about the transaction alike: if and only if callbacks report no failure, or there is neither a sweep told that an accepted submission is done nor an unclear reply with callbacks that report success. |
| Reversals.SafeReversesOnceAndNeverConfirmed | src/execution/engine.py:259-296 | Where all writes follow the table, at most one reversal is requested and never for a record that is CONFIRMED then or later. |
| Reversals.StepKeepsSingle | src/execution/engine.py:259-296 | Each step leaves at most one thread that may still ask for a reversal, and none once one was asked for. |
| Reversals.StepKeepsDecided | src/execution/engine.py:377-547 | Each step keeps a record whose money is being asked back out of the statuses that can be confirmed. |
| Reversals.SweepConfirmsReversed | src/execution/engine.py:481-547 | Two sweeps with different answers about one transaction: the money is asked back and the record ends CONFIRMED. |
| Reversals.SweepConfirmsReported | src/execution/engine.py:377-547 | One answer suffices: a sweep that is told the submission is done confirms after a callback has reported its failure and had the money asked back. |
| Reversals.CallbackConfirmsReversed | src/execution/engine.py:182-203 | An unclear reply reopens a compensated record, and a callback confirms it. |
| SqlBackend.UpdateByKey | src/infrastructure/sqlite_store.py:479-504 | An update whose WHERE names one key reports one row and changes that entry, or reports none and changes nothing. |
| SqlBackend.SqlStore.ApplyCallbackAtomic | src/infrastructure/sqlite_store.py:527-609 | The transaction answers and changes rows as the in-memory step does, `updated_at` aside; its zero-row branch is dead. |
| SqlBackend.SqlStore.MoveRecord | src/infrastructure/postgres_store.py:649-680 | The compare-and-set on the expected, non-terminal status always reports exactly one row. |
| SqlBackend.SqlStore.ClaimExecutionSubmit | src/infrastructure/sqlite_store.py:443-457 | The conditional update is won exactly on the tenant's pending record with no attempts. |
| SqlBackend.SqlStore.UpdateExecutionRecord | src/infrastructure/sqlite_store.py:479-504 | Written, lost or missing as in memory, except that a missing record with an expected status counts as lost. |
| SqlBackend.SqlStore.CreateExecutionRecord | src/infrastructure/postgres_store.py:465-487 | Insert-or-nothing then read back: the existing execution of the operation, or the new one. |
| SqlBackend.ConflictByAnchor | src/infrastructure/sqlite_store.py:78-86 | The uniqueness constraint finds what the in-memory index finds. |
| SqlBackend.BackendsDifferOnlyInTouch | src/infrastructure/store.py:607-631 | On one state, memory and SQL leave alike states, equal exactly when the nonce was booked, the record was not found, or the instant was that of the last update. |
| SqlBackend.BackendsAnswerAlike | src/infrastructure/sqlite_store.py:527-609 | Any sequence of callbacks to any records is answered the same by all backends. |
| ApprovalGraph.ApprovalsAreFinal | src/infrastructure/store.py:400-430 | No step, here or elsewhere, takes a decision back or rebinds an approval. |
| ApprovalGraph.StepKeepsSafe | src/graph/builder.py:31-52 | Routing names an approval wherever one will be needed, the execute node stays bound to what it has read, and every call, made or about to be made, stays covered. |
| ApprovalGraph.OnlyApprovedOperationsExecute | src/graph/nodes.py:202-289 | Over any turns, model output and resume values, and whatever happens between the steps of the execute node: the engine was called only under an approval that is approved and bound to that operation, thread and action, never under a rejected or timed-out one. |
| ApprovalGraph.EveryCallWasAnsweredYes | src/graph/approval.py:34-54 | Over any run: behind every call there is an earlier event at which its approval was undecided and that approved it by a yes: a human's to this thread, one through the API, or a change made elsewhere. |
| ApprovalGraph.AnswerDecides | src/graph/approval.py:32-54 | An undecided approval ends approved if and only if the resume value is a yes; anything else ends it rejected, closes the operation, and never leads to the execute node. |
| ApprovalGraph.StepDecides | src/infrastructure/store.py:400-450 | Whatever takes an approval from undecided to approved said yes about it; a no through the API rejects it, and its deadline times it out. |
| ApprovalGraph.ExpiryHandsOff | src/infrastructure/store.py:452-474 | An approval that times out hands its operation to a human unless that was executed. |
| ApprovalGraph.OnlyWriteIntentsWrite | src/graph/builder.py:16-29 | Refund, return and address intents lead each to its own write, and nothing else to any. |
| ApprovalGraph.WriteAsksFirst | src/graph/nodes.py:115-200 | A passed write asks for an undecided approval bound to this tenant, thread, operation and action; a refused one changes nothing and ends in an error. |
| ApprovalGraph.OnlyCheckedCalls | src/graph/nodes.py:217-265 | The execute node goes on only with an operation of its own tenant, thread and action, and to the call only with a capable model and an operation that was open when read. |
| ApprovalGraph.CalledOperationWasOpen | src/graph/nodes.py:217-265 | Every call goes back to a read of the run at which the operation was not executed, rejected or handed off; it still is so at the call if only the thread itself has moved since. |
| ApprovalGraph.HandedOffOperationIsCalled | src/graph/nodes.py:217-265 | It need not be: from an empty store a run of two requests with one key leads to a call for an operation that was handed off after the read. |
| ApprovalGraph.OperationsKeepIdentity | src/infrastructure/store.py:307-343 | No step removes an operation or changes anything of it but its status. |
| RagGraph.EndsWithin23Visits | src/graph/rag.py:35-178 | For any model and retriever and any stale state: over within 23 node visits, and in an error, or with relevant documents, a non-empty answer and a faithful check of that answer on those documents, if and only if no visit met an uncaught exception. |
| RagGraph.AbortedExactlyByUncaught | src/graph/rag.py:49-143 | An exception leaves the graph if and only if some visit met one that its node does not catch: any but LLMError in rewriting, generating or checking, any at all in grading. |
| RagGraph.AtMostFourRewritesThreeGenerations | src/graph/rag.py:86-143 | In any run, of any length, at most four rewrites and three generations. |
| RagGraph.VisitKeepsTrack | src/graph/rag.py:77-159 | Each visit keeps the attempt limits and brings the end strictly nearer. |
| RagGraph.ShownExactlyWhenVerified | src/graph/nodes.py:291-306 | After any finished run, with or without an answer: an answer is shown if and only if the run did not end in an error, it is the one that was checked, and the handover text appears exactly for an answer of a failed run. |
| RagGraph.FirstFaithfulIsTheAnswer | src/graph/rag.py:77-159 | The first round with a document graded 7 or better, if it is among the first four, is answered from, and the first draft of it found faithful, if it is among the first three, is the answer, after 4r + 2g + 7 visits. |
| RagGraph.LowRoundsEndInError | src/graph/rag.py:89-105 | Four rounds graded below 7 end in an error after 17 visits. |
| RagGraph.NothingFoundEndsInError | src/graph/rag.py:67-93 | A round without documents, or without a tenant, ends in an error. |
| RagGraph.UnfaithfulDraftsEndInError | src/graph/rag.py:121-159 | Three drafts found unfaithful end in an error and the handover text. |
| RagGraph.FailedCallsEndInError | src/graph/rag.py:52-143 | A failed rewriting, generation or check, an empty draft or a check out of form ends in an error. |
| LoginRateLimit.EveryWindowBounded | src/auth/ratelimit.py:110-146 | Every closed interval as long as the window holds at most the limit of recorded attempts of an account, and of an address, counted in the log. |
| LoginRateLimit.BackoffSeparates | src/auth/ratelimit.py:147-157 | After f failures in a row, f at least the allowance F, the next attempt is at least base * 2^(f-F) later or at least the cap; the powers are any sequence that starts at 1 and doubles. |
| LoginRateLimit.LockIsPlain | src/auth/ratelimit.py:147-157 | The lock ends exactly the smaller of base * 2^(f-F) and the cap after the last failure, f being the number of failures since the last success. |
| LoginRateLimit.DecisionIsPlain | src/auth/ratelimit.py:110-134 | Below the allowance no lock, from it on one that long; the account limit and then the address limit exactly when that many of the log's attempts are in the closed window. |
| LoginRateLimit.PrunedLength | src/auth/ratelimit.py:105-108 | A pruned deque is as long as the number of attempts in the closed window of the full history. |
| LoginRateLimit.AllowedKeepsBounds | src/api/routes.py:243-281 | An attempt recorded at or after an allowed check keeps both bounds. |
| LoginRateLimit.MemoryLoginRateLimiter.Prune | src/auth/ratelimit.py:105-108 | What is left is a suffix of the history, everything dropped is out of the window, and the head is in it. |
| LoginRateLimit.MemoryLoginRateLimiter.Check | src/auth/ratelimit.py:110-134 | In backoff exactly until the lock of the failures since the last success ends, with the time left; else the account limit, else the address limit, exactly when the log's attempts in the window reach it. |
| LoginRateLimit.MemoryLoginRateLimiter.Record | src/auth/ratelimit.py:136-157 | The attempt is appended; deques, counters and backoff again say what the history says. |
| LoginRateLimit.MemoryLoginRateLimiter.Login | src/api/routes.py:243-281 | Check and record with two clock readings keep both bounds; a refused attempt leaves no trace. |
| Breaker.AdmissionsBounded | src/llm/circuit_breaker.py:55-97 | While every admitted call fails, an interval of length T admits at most threshold + floor(T / cooldown) calls. |
| Breaker.PostsBounded | src/llm/openai_compatible.py:113-178 | While every admitted call fails, the calls asked for within an interval of length T post at most (max_retries + 1) * (threshold + floor(T / cooldown)) times. |
| Breaker.ProbeExactlyHalfOpen | src/llm/circuit_breaker.py:55-97 | The probe flag is set exactly in HALF_OPEN, in every run. |
| Breaker.FailingRun | src/llm/circuit_breaker.py:84-97 | In a run of failures the breaker is open exactly from the threshold on, and later admissions are a cooldown apart. |
| Breaker.CountsSinceAnswer | src/llm/circuit_breaker.py:75-97 | Over any calls, however they end: the count is the number of failures reported since the last answer, and the breaker is closed exactly while that is below the threshold. |
| Breaker.AdmittedExactly | src/llm/circuit_breaker.py:55-73 | The next call is admitted if and only if fewer than `threshold` failures were reported since the last answer, or the last admitted call failed and ended at least a cooldown ago. |
| Breaker.AnswerAdmits | src/llm/circuit_breaker.py:75-97 | After an answer every call is admitted until `threshold` further failures are reported. |
| Breaker.OpenSinceFailure | src/llm/circuit_breaker.py:84-97 | An open breaker was opened by the last admitted call, a failure, when that ended. |
| Breaker.CallsArePlain | src/llm/circuit_breaker.py:55-97 | One call: admitted unless cooling down or a probe is out; an answer closes and clears, a failure counts and opens at the threshold or as a probe, anything unreported leaves a probe out. |
| Breaker.WedgedForever | src/llm/circuit_breaker.py:66-72 | An unreported probe shuts the breaker for good, whatever the clock says. |
| Breaker.WedgedExactlyByUnreportedProbe | src/llm/openai_compatible.py:113-128 | A run wedges the breaker if and only if some probe of it is reported to nobody. |
| Breaker.RepliesByShape | src/llm/openai_compatible.py:166-175 | Which bodies of a reply below 400 are an answer, which a failure the breaker hears of, and so which are reported to nobody. |
| Breaker.ListReplyWedges | src/llm/openai_compatible.py:113-175 | A probe answered by a JSON list shuts the breaker for good. |
| Breaker.GuardedLLM.ChatInner | src/llm/openai_compatible.py:129-178 | Posts again after a lost reply or one of seven statuses, between one and max_retries + 1 times in all, and ends as the last reply says: answered, failed, or in a way nobody reports. |
| Breaker.GuardedLLM.Chat | src/llm/openai_compatible.py:113-128 | A refused call posts nothing and changes nothing; an admitted one posts as above; an answer closes the breaker and clears its count, a failure counts and may open it, and nothing else is told to it. |
| SseFraming.BlocksInParts | frontend/lib/sse.ts:43-62 | Text arriving in two parts delivers the first part's frames, then those of its unread end followed by the rest. |
| SseFraming.ConsumeSse | frontend/lib/sse.ts:43-62 | For any text in any chunks, the frames delivered (and whether reading throws) are those of the whole text. |
| SseFraming.ParsingReadsTheEndToo | frontend/lib/sse.ts:21-40 | Parsing a whole text differs from consuming it only by the unterminated last block. |
| SseFraming.WireFormat | src/service/chat.py:41-46 | A frame of one of the six events is the id, event and data lines and an empty line, character by character. |
| SseFraming.LinesSay | frontend/lib/sse.ts:26-36 | Of the lines of a block the last of each kind counts, and reading throws exactly at data that is not JSON. |
| SseFraming.BlockReadsBack | src/service/chat.py:41-46 | A formatted frame reads back as its id, event and data. |
| SseFraming.WrittenIsDelivered | src/service/chat.py:41-46 | The text of any events delivers exactly those events in order. |
| SseFraming.RoundTrip | frontend/lib/sse.ts:43-62 | However the written text is cut, the client gets exactly the events, in order, without an error. |
| IdWindow.LargestKeepsTheTop | frontend/lib/sse.ts:101-106 | What the window keeps is at most its size, and every dropped id is below every kept one. |
| IdWindow.NextWindow | frontend/lib/sse.ts:98-109 | The next id moves a full window on by one. |
| SseChannel.StreamLog.AppendEvent | src/infrastructure/store.py:676-684 | Events are numbered by their position, from 1. |
| SseChannel.AfterIsSuffix | src/infrastructure/store.py:686-689 | The events after a cursor are the log without its first entries. |
| SseChannel.SseChannel.Accept | frontend/lib/sse.ts:98-109 | An unseen id is remembered and becomes the last id; a seen one changes nothing. |
| SseChannel.SseChannel.HandleFrames | frontend/lib/sse.ts:111-122 | The channel ends as handling the frames one by one says. |
| SseChannel.FrameIsPlain | frontend/lib/sse.ts:98-122 | What an unseen frame changes of last id, window, stream id and status; a seen one changes nothing. |
| SseChannel.ExactlyOnce | frontend/lib/sse.ts:144-161 | Over any number of lost connections and a growing log the client is handed a prefix of the log, each event once and in order, remembers the ids of the last 512 and no others, never goes back, and is brought up to date by one whole connection. |
| SseChannel.OldCursorIsHarmlessWithinWindow | frontend/lib/sse.ts:98-109 | Resuming from an older cursor keeps delivery exactly-once if and only if it is at most 512 events behind or nothing arrives. |
| Histogram.MetricsRegistry.Observe | src/observability/metrics.py:70-84 | Every series stays the cumulative histogram of its observations, negative ones clamped to zero: each bucket is the number of them that are at most its bound. |
| Histogram.HistogramQuantile | deploy/observability/evidence/eval_alert_rules.py:344-392 | Repair in place and scan compute the estimate, which in plain terms is the one below; the branch for an empty bucket is dead. |
| Histogram.EstimateIsPlain | deploy/observability/evidence/eval_alert_rules.py:364-392 | Zero without observations, the first bound for a rank that is not positive, no bound beyond the total; in a bucket the estimate is affine in the rank and at the bucket's full count its upper bound. |
| Histogram.RankIsProduct | deploy/observability/evidence/eval_alert_rules.py:368 | The rank is q times the total. |
| Histogram.RepairedIsRunningMaximum | deploy/observability/evidence/eval_alert_rules.py:361-363 | Each repaired count is the largest of the counts up to it. |
| Histogram.RepairedIsNondecreasing | deploy/observability/evidence/eval_alert_rules.py:361-363 | The repaired counts never fall. |
| Histogram.HistoriesNeedNoRepair | deploy/observability/evidence/eval_alert_rules.py:361-363 | On the counts of any history the repair changes nothing. |
| Histogram.EstimateSharesTheBucket | deploy/observability/evidence/eval_alert_rules.py:367-392 | For any history, any bounds (a lone one positive) and q in (0, 1] the estimate and the true order statistic lie within exactly the same finite bounds. |
| Histogram.LoneBoundMustBePositive | deploy/observability/evidence/eval_alert_rules.py:386-392 | With a lone bound that is not positive they do if and only if the order statistic is not above it. |
| Histogram.OrderStatisticExists | deploy/observability/evidence/eval_alert_rules.py:367-370 | Every rank up to the number of observations has an order statistic. |
| Histogram.EstimateIsMonotone | deploy/observability/evidence/eval_alert_rules.py:344-392 | The estimate never falls as q grows, over all q, through the unbounded bucket and beyond 1, for any bounds (a lone one not negative). |
| Histogram.LoneNegativeBoundFalls | deploy/observability/evidence/eval_alert_rules.py:386-392 | With any lone negative bound it does fall. |
| OperationKeys.KeysIdentifyRequests | src/core/types.py:234-237 | Within a tenant two keys are equal if and only if action, order and request are, order ids being free of colons. |
| OperationKeys.KeyFormat | src/core/types.py:234-237 | The keys of the three write actions, character by character. |
| OperationKeys.PlainTenantsIdentify | src/core/types.py:234-237 | Across tenants whose ids have no colon, two keys are equal if and only if action, tenant, order and request are. |
| OperationKeys.TenantsMeetExactlyWhenExtending | src/core/types.py:234-237 | Any two different tenants have requests with one key if and only if the id of one continues, after the other's id and a colon, with an acceptable order id as its next segment. |
| OperationKeys.OrderIdsHaveNoColon | src/llm/validation.py:26 | The order id pattern admits no colon. |
| OperationKeys.ColonInTenantConfuses | src/core/types.py:234-237 | Tenants `a` and `a:ORD1`, orders ORD1 and ORD2: two refund requests with one key. |

## Left out

- Interleaving.SubmittedAtMostOnce: one operation at a time, live mode, a provider configured; threads of other operations touch other rows. Audit rows and clock fields are not part of the step model, and `compensate` called by hand is not one of its threads. The same holds for `Reversals`, which counts requests; the ledger keeps one row for all requests of an execution.
- ExecutionEffects.ExecuteComesToRest: no recovery is claimed for a record left pending; the code replays it and never reconciles it.
- LoginRateLimit.MemoryLoginRateLimiter.Login: check and record are one step after another; two logins of one key between whose check and record the other falls can exceed the limit by one each. The route has no suspension point between them.
- LoginRateLimit.BackoffSeparates: the Redis limiter (fixed windows held by a server) is not modelled.
- Breaker.AdmissionsBounded: calls follow one another; calls in flight at the same time are not counted.
- Breaker.PostsBounded: counts posts by the time their call was asked for, not by their own times within the call.
- OperationKeys.OrderIdsHaveNoColon: the nodes also accept other decimal digits than ASCII ones, and white space around the id; neither brings in a colon.
- SseFraming.RoundTrip: JSON and number formatting are an abstract codec assumed to read back what it wrote, on one line; bytes are decoded before chunks are joined.
- Histogram.HistogramQuantile: takes the counts in order of their bounds, as they are exposed; parsing the exposition text and sorting it are not modelled. Floats are reals.
- SqlBackend.SqlStore.ApplyCallbackAtomic: a transaction is one atomic step; row locks, row-level security, retries and connection handling are the database's.
- ApprovalGraph.CalledOperationWasOpen: what the engine makes of the call, which has its own idempotency, is the subject of the execution modules; here only the operation's status after it is a parameter.
- RagGraph.ShownExactlyWhenVerified: what the reply node falls through to when a run has no answer (an earlier operation's response, tool results, a generic text) is one outcome.
- ApprovalGraph.OnlyApprovedOperationsExecute: is tied to the approval named in the graph state. With two undecided approvals on one thread, the answer given to one resumes the thread and is applied to the one in the state.
- Error texts, `last_error`, messages, audit details and metrics of the execution engine; result dictionaries are reduced to their `execution_status`.
- HMAC, SHA and UUID: a callback's signature is a boolean input, derived ids are uninterpreted functions, fresh ids are distinct.
- The mock funds provider (its answers are a subset of the gateway's), HTTP routing, sessions and their retention, the capability whitelist, eligibility checks, retrieval scoring, the user interface, and deployment scripts.
- Stream start deduplication by client request id, and audit filtering: single scans that would only add easy members.
