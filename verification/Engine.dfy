/** The execution engine, each call run to completion over the in-memory store and the external ledger
    (src/execution/engine.py). */
module Engine {
  import opened Wrappers
  import opened ExecutionTypes
  import opened CallbackPlan
  import opened MemoryStore
  import opened Gateway
  import opened ExecutionEffects
  import opened EngineSpec
  import opened Listings
  import opened ReconcileSweep
  import opened Outcomes

  /** A clock that never runs backwards: each reading may advance it by any amount. */
  class Clock {
    var last: real
    var ticks: nat
    const advance: nat -> real

    constructor (start: real, advance: nat -> real)
      ensures last == start && this.advance == advance
    {
      last, ticks := start, 0;
      this.advance := advance;
    }

    method Now() returns (t: real)
      modifies this
      ensures t == last && last >= old(last)
    {
      var d := advance(ticks);
      ticks := ticks + 1;
      last := if d > 0.0 then last + d else last;
      t := last;
    }
  }

  /** What a call changed of a record's times it read from the clock while it ran. */
  predicate Stamped(before: Times, after: Times, start: real, end: real) {
    && start <= end && after.createdAt == before.createdAt
    && (after.updatedAt == before.updatedAt || start <= after.updatedAt <= end)
    && (after.submittedAt == before.submittedAt || InTime(after.submittedAt, start, end))
    && (after.confirmedAt == before.confirmedAt || InTime(after.confirmedAt, start, end))
  }

  /** All of a record's times were read from the clock while the call ran. */
  predicate TakenDuring(t: Times, start: real, end: real) {
    && start <= t.createdAt <= end && start <= t.updatedAt <= end
    && (t.submittedAt.Some? ==> InTime(t.submittedAt, start, end))
    && (t.confirmedAt.Some? ==> InTime(t.confirmedAt, start, end))
  }

  predicate InTime(t: Option<real>, start: real, end: real) {
    t.Some? && start <= t.value <= end
  }

  class ExecutionEngine {
    const store: MemoryStore
    const provider: GatewayProvider?
    const clock: Clock
    const mode: ExecutionMode
    const confirmTimeout: real
    const deriveTxnId: string -> string
    const syntheticReversal: string -> string

    constructor (store: MemoryStore, provider: GatewayProvider?, clock: Clock, mode: ExecutionMode,
                 confirmTimeout: real, deriveTxnId: string -> string, syntheticReversal: string -> string)
      ensures this.store == store && this.provider == provider && this.clock == clock
      ensures this.mode == mode && this.confirmTimeout == confirmTimeout
    {
      this.store, this.provider, this.clock := store, provider, clock;
      this.mode, this.confirmTimeout := mode, confirmTimeout;
      this.deriveTxnId, this.syntheticReversal := deriveTxnId, syntheticReversal;
    }

    ghost function Settings(): Config {
      Config(provider != null, deriveTxnId, syntheticReversal,
             if provider == null then (t, k, e) => "" else provider.reversalId)
    }

    ghost function Books(): Ledger
      reads provider
    {
      if provider == null then Ledger(map[], map[]) else provider.State()
    }

    ghost predicate Ready()
      reads store, provider
    {
      Linked(store.State()) && LedgerValid(Books())
    }

    /** The store has exactly this record, with its operation. */
    ghost predicate Holds(record: ExecutionRecord)
      reads store
    {
      && record.id.executionId in store.executions && store.executions[record.id.executionId] == record
      && record.id.operationId in store.operations
      && store.operations[record.id.operationId].tenantId == record.id.tenantId
      && store.operations[record.id.operationId].operationId == record.id.operationId
    }

    /** The store's record still has the identity and status of this snapshot. */
    ghost predicate HoldsLike(record: ExecutionRecord)
      reads store
    {
      && record.id.executionId in store.executions && store.executions[record.id.executionId].id == record.id
      && store.executions[record.id.executionId].status == record.status
      && record.id.operationId in store.operations
      && store.operations[record.id.operationId].tenantId == record.id.tenantId
      && store.operations[record.id.operationId].operationId == record.id.operationId
    }

    ghost predicate Unmoved(s: StoreState, l: Ledger)
      reads store, provider
    {
      store.State() == s && Books() == l
    }

    /** The stored record has this snapshot's times, but for those read since `start`. */
    ghost predicate StampedSince(record: ExecutionRecord, start: real)
      reads store, clock
    {
      record.id.executionId in store.executions
      && Stamped(record.times, store.executions[record.id.executionId].times, start, clock.last)
    }

    /** What every completed call keeps: store and ledger tell one story. */
    ghost predicate InOrder()
      reads store, provider
    {
      Consistent(provider != null, store.State(), Books())
    }

    // ----- internal steps -----

    /** A guarded move: illegal moves raise, unless an expected status turns them into a compare-and-set. */
    method Transition(record: ExecutionRecord, next: ExecutionStatus, expected: Option<ExecutionStatus>,
                      patch: ExecutionRecord -> ExecutionRecord)
      returns (result: Result<ExecutionRecord>)
      requires record.id.executionId in store.executions
      requires store.executions[record.id.executionId].id.tenantId == record.id.tenantId
      modifies store`executions, clock
      ensures clock.last >= old(clock.last)
      ensures var stored := old(store.executions)[record.id.executionId];
              if expected.None? && !CanTransition(record.status, next) then
                result == Raised(IllegalTransition) && store.executions == old(store.executions)
              else if expected.Some? && stored.status != expected.value then
                result == Ok(stored) && store.executions == old(store.executions)
              else
                result == Ok(Touch(patch(stored).(status := next), clock.last))
                && store.executions == old(store.executions)[record.id.executionId := result.value]
    {
      if !CanTransition(record.status, next) && expected.None? {
        return Raised(IllegalTransition);
      }
      var now := clock.Now();
      var reply := store.UpdateExecutionRecord(record.id.tenantId, record.id.executionId, next, expected, patch, now);
      match reply {
        case Missing => result := Raised(Error.NotFound);
        case CasLost => result := Ok(store.executions[record.id.executionId]);
        case Updated(r) => result := Ok(r);
      }
    }

    /** Reverses through the provider, or synthesises the receipt when there is none. */
    method RequestReversal(record: ExecutionRecord, fault: Fault) returns (receipt: Option<Receipt>)
      modifies provider
      ensures (Books(), receipt) == Reverse(Settings(), record, old(Books()), fault)
    {
      if provider != null {
        receipt := provider.Compensate(record.id.tenantId, record.id.executionId, record.id.idempotencyKey,
                                       AmountOf(record), fault);
      } else {
        receipt := Some(Receipt(Some(syntheticReversal(record.id.idempotencyKey)), record.id.amount, WireReversed));
      }
    }

    /** A legal move, its operation status and its audit row. */
    method Conclude(record: ExecutionRecord, next: ExecutionStatus, patch: ExecutionRecord -> ExecutionRecord,
                    action: Option<AuditAction>)
      returns (r: ExecutionRecord)
      requires HoldsLike(record)
      requires CanTransition(record.status, next)
      requires patch(store.executions[record.id.executionId]).id == record.id
      modifies store`executions, store`operations, store`audit, clock
      ensures clock.last >= old(clock.last) && Holds(r)
      ensures r == Touch(patch(old(store.executions)[record.id.executionId]).(status := next), clock.last)
      ensures store.State() == Commit(old(store.State()), r)
                               .(audit := old(store.audit) + if action.None? then [] else [Row(r, action.value)])
    {
      var moved := Transition(record, next, None, patch);
      r := moved.value;
      var found := store.UpdateOperation(record.id.tenantId, record.id.operationId, OperationStatusFor(next), next);
      if action.Some? {
        store.AppendAudit(record.id.tenantId, action.value, record.id.executionId);
      }
    }

    /** Brings a record to FAILED_DISPATCHED before it is reversed. */
    method Normalise(record: ExecutionRecord) returns (r: ExecutionRecord)
      requires Holds(record)
      requires record.status == FailedDispatched || CanTransition(record.status, FailedDispatched)
      modifies store`executions, clock
      ensures Holds(r) && Stamped(record.times, r.times, old(clock.last), clock.last)
      ensures r == record.(status := FailedDispatched, times := r.times)
      ensures Timeless(r) == Timeless(record.(status := FailedDispatched))
      ensures store.State() == PutExecution(old(store.State()), r)
    {
      if record.status == FailedDispatched {
        return record;
      }
      var moved := Transition(record, FailedDispatched, None, q => q);
      r := moved.value;
    }

    /** Closes a failed dispatch: normalise, reverse, then COMPENSATED or COMPENSATION_FAILED. */
    method SettleAfterDispatchFailure(record: ExecutionRecord, fault: Fault) returns (r: ExecutionRecord)
      requires Holds(record)
      requires !IsTerminal(record.status)
      modifies store`executions, store`operations, store`audit, provider, clock
      ensures Holds(r) && Stamped(record.times, r.times, old(clock.last), clock.last)
      ensures var e := SettleEffect(Settings(), record, old(Books()), fault);
              && Timeless(r) == Timeless(e.record)
              && Books() == e.ledger
              && store.State() == Commit(old(store.State()), r).(audit := old(store.audit) + SettleAudit(r))
      ensures record.status in {PendingSubmit, Submitted, FailedUncertain, FailedDispatched} ==>
                && AskedBack(provider != null, record, fault, old(Books()), Books())
                && ClosedByReversal(provider != null, record, fault, r, Books())
      ensures record.status in {Reconciling, Compensating} ==> r.status == HumanHandoff && Books() == old(Books())
    {
      ghost var l := Books();
      r := CloseFailedDispatch(record, fault);
      SameButTimes(SettleEffect(Settings(), record, l, fault).record, r);
      if record.status in {PendingSubmit, Submitted, FailedUncertain, FailedDispatched} {
        FailureIsSettled(Settings(), record, l, fault);
      }
    }

    method CloseFailedDispatch(record: ExecutionRecord, fault: Fault) returns (r: ExecutionRecord)
      requires Holds(record)
      requires !IsTerminal(record.status)
      modifies store`executions, store`operations, store`audit, provider, clock
      ensures Holds(r) && Stamped(record.times, r.times, old(clock.last), clock.last)
      ensures var e := SettleEffect(Settings(), record, old(Books()), fault);
              && Timeless(r) == Timeless(e.record)
              && Books() == e.ledger
              && store.State() == Commit(old(store.State()), r).(audit := old(store.audit) + SettleAudit(r))
    {
      if record.status != FailedDispatched && !CanTransition(record.status, FailedDispatched) {
        r := Conclude(record, HumanHandoff, q => q, None);
        return;
      }
      var failed := Normalise(record);
      SettleFromFailed(Settings(), record, failed, Books(), fault);
      r := ReverseAndClose(failed, fault);
      CommitOverwrites(old(store.State()), failed, r);
    }

    method ReverseAndClose(failed: ExecutionRecord, fault: Fault) returns (r: ExecutionRecord)
      requires Holds(failed) && failed.status == FailedDispatched
      modifies store`executions, store`operations, store`audit, provider, clock
      ensures Holds(r) && Stamped(failed.times, r.times, old(clock.last), clock.last)
      ensures var (l, receipt) := Reverse(Settings(), failed, old(Books()), fault);
              Books() == l && Timeless(r) == Timeless(Reversed(failed, receipt)) && failed.id == r.id
      ensures store.State() == Commit(old(store.State()), r).(audit := old(store.audit) + SettleAudit(r))
    {
      var receipt := RequestReversal(failed, fault);
      var now := clock.Now();
      if receipt.Some? {
        r := Conclude(failed, Compensated,
                      (q: ExecutionRecord) => StampConfirmed(q.(compensationResult := receipt), now),
                      Some(AuditCompensated));
      } else {
        r := Conclude(failed, CompensationFailed, (q: ExecutionRecord) => StampConfirmed(q, now),
                      Some(AuditCompensationFailed));
      }
    }

    // ----- execute -----

    /** Executes an approved operation once; every later call replays the stored record. The first execution of a live
        refund puts exactly the order's total into the ledger. */
    method Execute(operation: Operation, orderTotal: Option<real>, overrideMode: Option<ExecutionMode>,
                   freshId: string, env: SubmitEnv)
      returns (result: Result<ExecutionOutcome>)
      requires Ready() && freshId !in store.executions && FreshTxnId(Books(), env.freshTxnId)
      requires operation.operationId in store.operations
      requires SameOperation(store.operations[operation.operationId], operation)
      modifies store, provider, clock
      ensures ExecuteSpec(Settings(), operation, ResolveAmount(operation.pendingAction, orderTotal),
                          if overrideMode.Some? then overrideMode.value else mode, freshId, env,
                          old(store.State()), old(Books()), store.State(), Books(), result)
      ensures var existing := (operation.tenantId, operation.operationId) in old(store.executionByOperation);
              if existing then
                Repeated(operation, old(store.executions[store.executionByOperation[(operation.tenantId,
                                                                                     operation.operationId)]]),
                         old(store.State()), old(Books()), store.State(), Books(), result)
              else
                Executed(provider != null, operation, orderTotal,
                         if overrideMode.Some? then overrideMode.value else mode, freshId, env,
                         old(store.State()), old(Books()), store.State(), Books(), result)
      ensures old(InOrder()) && (operation.tenantId, operation.operationId) !in old(store.executionByOperation)
              && operation.pendingAction == Refund && orderTotal.Some? && orderTotal.value > 0.0
              && (if overrideMode.Some? then overrideMode.value else mode) == Live && provider != null
              && env.submitFault != RequestLost ==>
                Books().txns == old(Books()).txns[(operation.tenantId, operation.idempotencyKey) :=
                                                    Txn(env.freshTxnId, orderTotal.value, env.status)]
      ensures Ready() && (old(InOrder()) ==> InOrder())
      ensures freshId in store.executions ==>
                TakenDuring(store.executions[freshId].times, old(clock.last), clock.last)
    {
      var m := if overrideMode.Some? then overrideMode.value else mode;
      var amount := ResolveAmount(operation.pendingAction, orderTotal);
      result := ExecuteOnce(operation, amount, m, freshId, env);
      ExecuteKeepsOrder(Settings(), operation, amount, m, freshId, env,
                        old(store.State()), old(Books()), store.State(), Books(), result);
      ExecuteIsPlain(Settings(), operation, orderTotal, m, freshId, env,
                     old(store.State()), old(Books()), store.State(), Books(), result);
      if old(InOrder()) && (operation.tenantId, operation.operationId) !in old(store.executionByOperation)
         && operation.pendingAction == Refund && orderTotal.Some? && orderTotal.value > 0.0
         && m == Live && provider != null && env.submitFault != RequestLost {
        FirstAddsTheRow(Settings(), operation, orderTotal, m, freshId, env,
                        old(store.State()), old(Books()), store.State(), Books(), result);
      }
    }

    method ExecuteOnce(operation: Operation, amount: Result<Option<real>>, m: ExecutionMode, freshId: string,
                       env: SubmitEnv)
      returns (result: Result<ExecutionOutcome>)
      requires ValidStore(store.State()) && freshId !in store.executions
      requires operation.operationId in store.operations
      requires SameOperation(store.operations[operation.operationId], operation)
      modifies store, provider, clock
      ensures ExecuteSpec(Settings(), operation, amount, m, freshId, env,
                          old(store.State()), old(Books()), store.State(), Books(), result)
      ensures freshId in store.executions ==>
                TakenDuring(store.executions[freshId].times, old(clock.last), clock.last)
    {
      var existing := store.GetExecutionByOperation(operation.tenantId, operation.operationId);
      if existing.Some? {
        return Ok(ReplayOutcome(existing.value, store.operations[operation.operationId]));
      }
      if amount.Raised? {
        return Raised(amount.error);
      }
      result := ExecuteNew(operation, amount.value, m, freshId, env);
    }

    method ExecuteNew(operation: Operation, amount: Option<real>, m: ExecutionMode, freshId: string, env: SubmitEnv)
      returns (result: Result<ExecutionOutcome>)
      requires ValidStore(store.State()) && freshId !in store.executions
      requires operation.operationId in store.operations
      requires SameOperation(store.operations[operation.operationId], operation)
      requires AnchorOfOperation(operation) !in store.executionByOperation
      modifies store, provider, clock
      ensures FirstExecution(Settings(), NewRecord(operation, m, amount, 0.0, freshId), env,
                             old(store.State()), old(Books()), store.State(), Books(), result)
      ensures freshId in store.executions
      ensures TakenDuring(store.executions[freshId].times, old(clock.last), clock.last)
    {
      var record := CreateNew(operation, amount, m, freshId);
      result := Run(record, operation, env);
      FirstFromSettled(Settings(), NewRecord(operation, m, amount, 0.0, freshId), record, store.executions[freshId],
                       env, old(store.State()), old(Books()), store.State(), Books(), result);
    }

    method CreateNew(operation: Operation, amount: Option<real>, m: ExecutionMode, freshId: string)
      returns (record: ExecutionRecord)
      requires ValidStore(store.State()) && freshId !in store.executions
      requires operation.operationId in store.operations
      requires SameOperation(store.operations[operation.operationId], operation)
      requires AnchorOfOperation(operation) !in store.executionByOperation
      modifies store, clock
      ensures Holds(record) && record.id.operationId == operation.operationId && record.id.executionId == freshId
      ensures record.status == PendingSubmit && record.attempts == 0
      ensures clock.last >= old(clock.last) && TakenDuring(record.times, old(clock.last), clock.last)
      ensures Timeless(record) == Timeless(NewRecord(operation, m, amount, 0.0, freshId))
      ensures store.State() == InsertExecution(old(store.State()), record)
                               .(audit := old(store.audit) + [Row(record, AuditCreate)])
    {
      var now := clock.Now();
      record := store.CreateExecutionRecord(operation, m, amount, now, freshId);
      assert record == NewRecord(operation, m, amount, now, freshId);
      store.AppendAudit(operation.tenantId, AuditCreate, record.id.executionId);
    }

    method Run(record: ExecutionRecord, operation: Operation, env: SubmitEnv)
      returns (result: Result<ExecutionOutcome>)
      requires Holds(record) && record.id.operationId == operation.operationId
      requires record.status == PendingSubmit && record.attempts == 0
      modifies store`executions, store`operations, store`audit, provider, clock
      ensures if record.id.mode == Live && provider == null then
                Unmoved(old(store.State()), old(Books())) && result == Raised(ProviderMissing)
              else Settled(record, ExecuteEffect(Settings(), record, old(Books()), env), old(store.State()), result)
      ensures StampedSince(record, old(clock.last))
    {
      if record.id.mode == Shadow {
        result := RunShadow(record);
      } else {
        result := RunLive(record, operation, env);
      }
    }

    /** Shadow: a synthetic receipt, confirmed at once, nothing external. */
    method RunShadow(record: ExecutionRecord) returns (result: Result<ExecutionOutcome>)
      requires Holds(record) && record.status == PendingSubmit
      modifies store`executions, store`operations, store`audit, clock
      ensures Settled(record, Effect(ShadowEffect(Settings(), record), Books()), old(store.State()), result)
      ensures StampedSince(record, old(clock.last))
      ensures var r, x := store.executions[record.id.executionId], Some(deriveTxnId(record.id.idempotencyKey));
              && r.status == Confirmed && r.externalTxnId == x
              && store.operations[record.id.operationId].status == OpExecuted
              && r.receipt == Some(Receipt(x, record.id.amount, WireSucceeded))
    {
      var x := deriveTxnId(record.id.idempotencyKey);
      var receipt := Receipt(Some(x), record.id.amount, WireSucceeded);
      var submitted := clock.Now();
      var confirmed := clock.Now();
      var r := Conclude(record, Confirmed,
                        (q: ExecutionRecord) => StampConfirmed(StampSubmitted(
                          q.(externalTxnId := Some(x), receipt := Some(receipt)), submitted), confirmed), None);
      result := Ok(FirstOutcome(r));
    }

    /** Live: claim the one right to submit, submit, and settle by the answer. A record whose submission was
        already claimed is replayed. */
    method RunLive(record: ExecutionRecord, operation: Operation, env: SubmitEnv)
      returns (result: Result<ExecutionOutcome>)
      requires Holds(record) && record.id.operationId == operation.operationId
      modifies store`executions, store`operations, store`audit, provider, clock
      ensures provider == null ==> Unmoved(old(store.State()), old(Books())) && result == Raised(ProviderMissing)
      ensures provider != null && (record.status != PendingSubmit || record.attempts != 0) ==>
                && Unmoved(old(store.State()), old(Books()))
                && result == Ok(ReplayOutcome(record, store.operations[record.id.operationId]))
      ensures provider != null && record.status == PendingSubmit && record.attempts == 0 ==>
                Settled(record, SubmitEffect(Settings(), record, old(Books()), env), old(store.State()), result)
      ensures provider != null && record.status == PendingSubmit && record.attempts == 0
              && record.externalTxnId.None? && record.receipt.None? ==>
                SubmittedLive(store.executions[record.id.executionId],
                              if record.id.amount.Some? then record.id.amount.value else 0.0,
                              env, old(Books()), Books())
      ensures StampedSince(record, old(clock.last))
    {
      ghost var l := Books();
      result := SubmitLive(record, operation, env);
      if provider != null && record.status == PendingSubmit && record.attempts == 0
         && record.externalTxnId.None? && record.receipt.None? {
        LiveEndsByRow(Settings(), record, l, env);
        EndsTimeless(SubmitEffect(Settings(), record, l, env).record, store.executions[record.id.executionId],
                     if record.id.amount.Some? then record.id.amount.value else 0.0, env, l, Books());
      }
    }

    method SubmitLive(record: ExecutionRecord, operation: Operation, env: SubmitEnv)
      returns (result: Result<ExecutionOutcome>)
      requires Holds(record) && record.id.operationId == operation.operationId
      modifies store`executions, store`operations, store`audit, provider, clock
      ensures provider == null ==> Unmoved(old(store.State()), old(Books())) && result == Raised(ProviderMissing)
      ensures provider != null && (record.status != PendingSubmit || record.attempts != 0) ==>
                && Unmoved(old(store.State()), old(Books()))
                && result == Ok(ReplayOutcome(record, store.operations[record.id.operationId]))
      ensures provider != null && record.status == PendingSubmit && record.attempts == 0 ==>
                Settled(record, SubmitEffect(Settings(), record, old(Books()), env), old(store.State()), result)
      ensures StampedSince(record, old(clock.last))
    {
      if provider == null {
        return Raised(ProviderMissing);
      }
      var now := clock.Now();
      var claimed := store.ClaimExecutionSubmit(record.id.tenantId, record.id.executionId, now);
      if claimed == Some(false) {
        return Ok(ReplayOutcome(store.executions[record.id.executionId], store.operations[operation.operationId]));
      }
      ghost var own := store.executions[record.id.executionId];
      result := SubmitClaimed(record, operation, env);
      CommitOverwrites(old(store.State()), own, store.executions[record.id.executionId]);
    }

    /** The provider is asked, and the record settled by its answer. */
    method SubmitClaimed(record: ExecutionRecord, operation: Operation, env: SubmitEnv)
      returns (result: Result<ExecutionOutcome>)
      requires HoldsLike(record) && record.status == PendingSubmit && record.id.operationId == operation.operationId
      requires provider != null && Timeless(store.executions[record.id.executionId]) == Timeless(record.(attempts := 1))
      modifies store`executions, store`operations, store`audit, provider, clock
      ensures Settled(record, SubmitEffect(Settings(), record, old(Books()), env), old(store.State()), result)
      ensures StampedSince(old(store.executions)[record.id.executionId], old(clock.last))
    {
      ghost var own, l := store.executions[record.id.executionId], Books();
      var reply := provider.Submit(record.id.tenantId, record.id.idempotencyKey, AmountOf(record), env.status,
                                   env.freshTxnId, env.submitFault);
      result := SettleSubmit(record, operation, reply, env.compensateFault);
      SubmittedAsClaimed(Settings(), record, own, l, env);
    }

    /** The record came out as this effect says, was committed with its operation, and was reported. */
    ghost predicate Settled(record: ExecutionRecord, e: Effect, s: StoreState, result: Result<ExecutionOutcome>)
      requires record.id.operationId in s.operations
      reads store, provider
    {
      record.id.executionId in store.executions
      && var r := store.executions[record.id.executionId];
      && Timeless(r) == Timeless(e.record) && r.id == record.id && Books() == e.ledger
      && result == Ok(FirstOutcome(r))
      && store.State() == Commit(s, r).(audit := s.audit + ExecuteAudit(r)[1..])
    }

    method SettleSubmit(record: ExecutionRecord, operation: Operation, reply: Option<Txn>, fault: Fault)
      returns (result: Result<ExecutionOutcome>)
      requires HoldsLike(record) && record.status == PendingSubmit && record.id.operationId == operation.operationId
      modifies store`executions, store`operations, store`audit, provider, clock
      ensures Settled(record,
                      AfterSubmit(Settings(), old(store.executions)[record.id.executionId], old(Books()), reply, fault),
                      old(store.State()), result)
      ensures StampedSince(old(store.executions)[record.id.executionId], old(clock.last))
    {
      if reply.None? {
        result := SettleUnclear(record);
        return;
      }
      result := SettleAnswer(record, operation, reply.value, fault);
    }

    method SettleAnswer(record: ExecutionRecord, operation: Operation, t: Txn, fault: Fault)
      returns (result: Result<ExecutionOutcome>)
      requires HoldsLike(record) && record.status == PendingSubmit && record.id.operationId == operation.operationId
      modifies store`executions, store`operations, store`audit, provider, clock
      ensures Settled(record,
                      AfterSubmit(Settings(), old(store.executions)[record.id.executionId], old(Books()),
                                  Some(t), fault),
                      old(store.State()), result)
      ensures StampedSince(old(store.executions)[record.id.executionId], old(clock.last))
    {
      var x := if t.externalTxnId != "" then t.externalTxnId else deriveTxnId(record.id.idempotencyKey);
      if Success(t.status) {
        result := MarkSubmitted(record, operation, x, TxnReceipt(t));
      } else {
        var r := SettleRefused(record, x, fault);
        result := Ok(FirstOutcome(r));
      }
    }

    /** No clear answer: FAILED_UNCERTAIN, without an external id. */
    method SettleUnclear(record: ExecutionRecord) returns (result: Result<ExecutionOutcome>)
      requires HoldsLike(record) && record.status == PendingSubmit
      modifies store`executions, store`operations, store`audit, clock
      ensures Settled(record,
                      Effect(old(store.executions)[record.id.executionId].(status := FailedUncertain), Books()),
                      old(store.State()), result)
      ensures StampedSince(old(store.executions)[record.id.executionId], old(clock.last))
    {
      var r := Conclude(record, FailedUncertain, q => q, Some(AuditSubmitUncertain));
      result := Ok(FirstOutcome(r));
    }

    /** Refused by the provider: FAILED_DISPATCHED under the external id, then settled. */
    method SettleRefused(record: ExecutionRecord, x: string, fault: Fault) returns (r: ExecutionRecord)
      requires HoldsLike(record) && record.status == PendingSubmit
      modifies store`executions, store`operations, store`audit, provider, clock
      ensures Holds(r) && r.id == record.id
      ensures StampedSince(old(store.executions)[record.id.executionId], old(clock.last))
      ensures var e := SettleEffect(Settings(), old(store.executions)[record.id.executionId]
                                                .(status := FailedDispatched, externalTxnId := Some(x)),
                                    old(Books()), fault);
              && Timeless(r) == Timeless(e.record) && Books() == e.ledger
              && store.State() == Commit(old(store.State()), r).(audit := old(store.audit) + SettleAudit(r))
    {
      var refused := Transition(record, FailedDispatched, None,
                                (q: ExecutionRecord) => q.(externalTxnId := Some(x)));
      SettleIgnoresTimes(Settings(), refused.value, old(store.executions)[record.id.executionId]
                         .(status := FailedDispatched, externalTxnId := Some(x)), Books(), fault);
      r := SettleAfterDispatchFailure(refused.value, fault);
      CommitOverwrites(old(store.State()), refused.value, r);
    }

    /** Accepted by the provider: compare-and-set from PENDING_SUBMIT; a record already moved on is replayed. */
    method MarkSubmitted(record: ExecutionRecord, operation: Operation, x: string, receipt: Receipt)
      returns (result: Result<ExecutionOutcome>)
      requires record.id.executionId in store.executions && store.executions[record.id.executionId].id == record.id
      requires record.id.operationId == operation.operationId && record.id.operationId in store.operations
      requires store.operations[record.id.operationId].tenantId == record.id.tenantId
      modifies store`executions, store`operations, clock
      ensures record.id.executionId in store.executions
      ensures StampedSince(old(store.executions)[record.id.executionId], old(clock.last))
      ensures var stored := old(store.executions)[record.id.executionId];
              var r := store.executions[record.id.executionId];
              if stored.status == PendingSubmit then
                && Timeless(r) == Timeless(SubmittedRecord(stored, x, receipt))
                && result == Ok(FirstOutcome(r)) && store.State() == Commit(old(store.State()), r)
              else if stored.status == Submitted then
                && store.State() == Commit(old(store.State()), stored)
                && result == Ok(FirstOutcome(stored.(receipt := Some(receipt), externalTxnId := Some(x))))
              else
                && store.State() == old(store.State())
                && result == Ok(ReplayOutcome(stored, store.operations[record.id.operationId]))
    {
      var now := clock.Now();
      var moved := Transition(record, Submitted, Some(PendingSubmit),
                              (q: ExecutionRecord) => StampSubmitted(
                                q.(externalTxnId := Some(x), receipt := Some(receipt)), now));
      var r := moved.value;
      if r.status != Submitted {
        return Ok(ReplayOutcome(r, store.operations[operation.operationId]));
      }
      var found := store.UpdateOperation(r.id.tenantId, r.id.operationId, OpExecuted, Submitted);
      result := Ok(FirstOutcome(r.(receipt := Some(receipt), externalTxnId := Some(x))));
    }

    // ----- callbacks -----

    /** A callback from the external side: verified, applied atomically, and settled when it reports a failure. */
    method ApplyCallback(signatureValid: bool, body: Option<CallbackBody>, fault: Fault)
      returns (result: CallbackResult)
      requires Ready()
      modifies store, provider, clock
      ensures CallbackSpec(Settings(), signatureValid, body, fault,
                           old(store.State()), old(Books()), store.State(), Books(), result)
      ensures signatureValid && body.Some? && body.value.tenantId != "" && body.value.executionId != ""
              && body.value.nonce != "" && body.value.executionId in old(store.executions)
              && old(store.executions)[body.value.executionId].id.tenantId == body.value.tenantId ==>
                var r := old(store.executions)[body.value.executionId];
                && StampedSince(r, old(clock.last))
                && CallbackDecides(provider != null, r, body.value, fault, old(Books()),
                                   store.executions[body.value.executionId], Books())
                && CallbackTells(r, body.value, store.executions[body.value.executionId],
                                 old(store.State()), store.State(), result)
      ensures Ready() && (old(InOrder()) ==> InOrder())
    {
      result := HandleCallback(signatureValid, body, fault);
      CallbackKeepsOrder(Settings(), signatureValid, body, fault,
                         old(store.State()), old(Books()), store.State(), Books(), result);
      if signatureValid && body.Some? && body.value.tenantId != "" && body.value.executionId != ""
         && body.value.nonce != "" && body.value.executionId in old(store.executions)
         && old(store.executions)[body.value.executionId].id.tenantId == body.value.tenantId {
        CallbackIsPlain(Settings(), body.value, fault, old(store.State()), old(Books()), store.State(), Books(),
                        result);
      }
    }

    method HandleCallback(signatureValid: bool, body: Option<CallbackBody>, fault: Fault)
      returns (result: CallbackResult)
      requires Linked(store.State())
      modifies store, provider, clock
      ensures CallbackSpec(Settings(), signatureValid, body, fault,
                           old(store.State()), old(Books()), store.State(), Books(), result)
      ensures body.Some? && body.value.executionId in old(store.executions) && result.Handled? ==>
                StampedSince(old(store.executions)[body.value.executionId], old(clock.last))
    {
      if !signatureValid {
        return SignatureInvalid;
      }
      if body.None? {
        return BadPayload;
      }
      var b := body.value;
      if b.tenantId == "" || b.executionId == "" {
        return MissingIdentity;
      }
      if b.nonce == "" {
        return MissingNonce;
      }
      if b.executionId in store.executions {
        assert store.executions[b.executionId].id.operationId in store.operations;
      }
      result := HandleLocated(b, fault);
    }

    method HandleLocated(b: CallbackBody, fault: Fault) returns (result: CallbackResult)
      requires b.executionId in store.executions ==>
                 && Holds(store.executions[b.executionId])
                 && store.executions[b.executionId].id.executionId == b.executionId
      modifies store, provider, clock
      ensures if b.executionId in old(store.executions)
                 && old(store.executions)[b.executionId].id.tenantId == b.tenantId then
                LocatedCallback(Settings(), b, fault, old(store.State()), old(Books()), store.State(), Books(), result)
              else
                Unmoved(old(store.State()), old(Books())) && result == UnknownExecution
      ensures b.executionId in old(store.executions) && result.Handled? ==>
                StampedSince(old(store.executions)[b.executionId], old(clock.last))
    {
      var now := clock.Now();
      var outcome := store.ApplyCallbackAtomic(b.tenantId, b.executionId, b.nonce, b.payload, now);
      if outcome.CallbackNotFound? {
        return UnknownExecution;
      }
      if outcome.reason != DispatchFailed {
        CallbackIsRewrite(old(store.State()), b, now);
        return Handled(outcome.applied, outcome.reason, outcome.status, outcome.receipt);
      }
      result := SettleReported(b, now, fault, old(store.State()));
    }

    /** The external side reported a failure, and the atomic step has written it: read back and settle. */
    method SettleReported(b: CallbackBody, now: real, fault: Fault, ghost s: StoreState)
      returns (result: CallbackResult)
      requires b.executionId in s.executions && s.executions[b.executionId].id.tenantId == b.tenantId
      requires s.executions[b.executionId].id.executionId == b.executionId
      requires s.executions[b.executionId].id.operationId in s.operations
      requires s.operations[s.executions[b.executionId].id.operationId].operationId
               == s.executions[b.executionId].id.operationId
      requires s.operations[s.executions[b.executionId].id.operationId].tenantId == b.tenantId
      requires MakePlan(s.executions[b.executionId], b.nonce, b.payload).reason == DispatchFailed
      requires store.State() == CallbackState(s, b.tenantId, b.executionId, b.nonce, b.payload, now)
      modifies store`executions, store`operations, store`audit, provider, clock
      ensures LocatedCallback(Settings(), b, fault, s, old(Books()), store.State(), Books(), result)
      ensures StampedSince(old(store.executions)[b.executionId], old(clock.last))
    {
      PlannedMoveIsLegal(s.executions[b.executionId], b.nonce, b.payload);
      ghost var l := Books();
      var r := SettleAfterDispatchFailure(store.executions[b.executionId], fault);
      assert r.id == s.executions[b.executionId].id by {
        SettleIgnoresTimes(Settings(), old(store.executions)[b.executionId], old(store.executions)[b.executionId],
                           l, fault);
      }
      ReportedIsLocated(Settings(), b, fault, s, l, now, r, store.State(), Books());
      result := Handled(true, DispatchFailed, r.status, r.receipt);
    }

    // ----- reconciliation -----

    /** Submitted and unconfirmed for longer than the timeout, by a fresh reading of the clock. */
    method IsOverdue(r: ExecutionRecord) returns (overdue: bool)
      modifies clock
      ensures clock.last >= old(clock.last)
      ensures overdue <==> OverdueAt(r, clock.last, confirmTimeout)
      ensures overdue <==> r.status == Submitted && r.times.submittedAt.Some?
                           && clock.last - r.times.submittedAt.value > confirmTimeout
    {
      if r.status != Submitted || r.times.submittedAt.None? {
        return false;
      }
      var now := clock.Now();
      overdue := now - r.times.submittedAt.value > confirmTimeout;
    }

    /** The overdue records of a listing; the clock is read anew for every record. */
    method PickOverdue(records: seq<ExecutionRecord>) returns (rs: seq<ExecutionRecord>, ghost at: seq<real>)
      modifies clock
      ensures |at| == |records| && Timeline(at, old(clock.last), clock.last)
      ensures rs == OverduePart(records, at, confirmTimeout)
    {
      rs, at := [], [];
      for i := 0 to |records|
        invariant |at| == i && Timeline(at, old(clock.last), clock.last)
        invariant rs == OverduePart(records[..i], at, confirmTimeout)
      {
        ghost var before := clock.last;
        var overdue := IsOverdue(records[i]);
        if overdue {
          rs := rs + [records[i]];
        }
        OverduePartGrows(records, at, i, clock.last, confirmTimeout);
        TimelineGrows(at, old(clock.last), before, clock.last);
        at := at + [clock.last];
      }
      assert records[..|records|] == records;
    }

    /** The wanted records of a listing that are not overdue. */
    method PickOthers(records: seq<ExecutionRecord>) returns (rs: seq<ExecutionRecord>, ghost at: seq<real>)
      modifies clock
      ensures |at| == |records| && Timeline(at, old(clock.last), clock.last)
      ensures rs == OthersPart(records, at, confirmTimeout)
    {
      rs, at := [], [];
      for i := 0 to |records|
        invariant |at| == i && Timeline(at, old(clock.last), clock.last)
        invariant rs == OthersPart(records[..i], at, confirmTimeout)
      {
        ghost var before := clock.last;
        if Wanted(records[i].status) {
          var overdue := IsOverdue(records[i]);
          if !overdue {
            rs := rs + [records[i]];
          }
        }
        OthersPartGrows(records, at, i, clock.last, confirmTimeout);
        TimelineGrows(at, old(clock.last), before, clock.last);
        at := at + [clock.last];
      }
      assert records[..|records|] == records;
    }

    /** The records found overdue, in the order of the listing, cut at `limit`; so exactly when they fit the limit it
        has them all. */
    method ListOverdueTargets(tenantId: string, limit: nat)
      returns (result: Result<seq<ExecutionRecord>>, ghost at: seq<real>)
      requires ValidStore(store.State())
      modifies clock
      ensures clock.last >= old(clock.last)
      ensures result == Raised(Forbidden) <==> tenantId == ""
      ensures tenantId != "" ==>
                && |at| == |store.Listing(tenantId)| && Timeline(at, old(clock.last), clock.last)
                && var overdue := OverduePart(store.Listing(tenantId), at, confirmTimeout);
                   result == Ok(Cut(overdue, limit))
                   && ((forall r :: r in overdue ==> r in result.value) <==> |overdue| <= limit)
    {
      at := [];
      if tenantId == "" {
        return Raised(Forbidden), at;
      }
      TenantRecordsExact(store.executionOrder, store.executions, tenantId);
      var records := store.ListExecutionRecords(tenantId);
      var overdue;
      overdue, at := PickOverdue(records);
      OverduePartExact(records, at, confirmTimeout);
      assert overdue + [] == overdue;
      LimitDropsOverdueExactly(overdue, [], limit);
      result := Ok(if |overdue| <= limit then overdue else overdue[..limit]);
    }

    /** The records found overdue first, then the rest of the open ones, cut at `limit`. Contrary to what the source
        says of it, a record found overdue is cut off exactly when the overdue ones alone do not fit the limit. */
    method ListReconciliationTargets(tenantId: string, limit: nat)
      returns (result: Result<seq<ExecutionRecord>>, ghost first: seq<real>, ghost second: seq<real>)
      requires ValidStore(store.State())
      modifies clock
      ensures clock.last >= old(clock.last)
      ensures result == Raised(Forbidden) <==> tenantId == ""
      ensures tenantId != "" ==>
                && |first| == |second| == |store.Listing(tenantId)|
                && Timeline(first + second, old(clock.last), clock.last)
                && result == Ok(Cut(OverdueFirst(store.Listing(tenantId), first, second, confirmTimeout), limit))
                && Distinct(result.value)
                && var overdue := OverduePart(store.Listing(tenantId), first, confirmTimeout);
                   (forall r :: r in overdue ==> r in result.value) <==> |overdue| <= limit
    {
      first, second := [], [];
      if tenantId == "" {
        return Raised(Forbidden), first, second;
      }
      TenantRecordsExact(store.executionOrder, store.executions, tenantId);
      var records := store.ListExecutionRecords(tenantId);
      var overdue, others;
      overdue, first := PickOverdue(records);
      ghost var middle := clock.last;
      others, second := PickOthers(records);
      TimelinesJoin(first, second, old(clock.last), middle, clock.last);
      OverdueFirstIsDistinct(records, first, second, confirmTimeout);
      LimitDropsOverdueExactly(overdue, others, limit);
      var all := overdue + others;
      CutMembers(all, limit);
      result := Ok(if |all| <= limit then all else all[..limit]);
    }

    /** Appends the records whose ids have not been seen. */
    method AddUnseen(targets: seq<ExecutionRecord>, seen: set<string>, rs: seq<ExecutionRecord>)
      returns (targets': seq<ExecutionRecord>, seen': set<string>)
      requires seen == Ids(targets)
      ensures targets' == AddAll(targets, rs) && seen' == Ids(targets')
    {
      targets', seen' := targets, seen;
      for i := 0 to |rs|
        invariant targets' == AddAll(targets, rs[..i]) && seen' == Ids(targets')
      {
        assert rs[..i + 1][..i] == rs[..i];
        if rs[i].id.executionId !in seen' {
          IdsGrow(targets', rs[i]);
          seen' := seen' + {rs[i].id.executionId};
          targets' := targets' + [rs[i]];
        }
      }
      assert rs[..|rs|] == rs;
    }

    /** The records a sweep takes, and the readings they are taken by: distinct open records of the tenant, at least 200
        of them unless that is all; and, unless the last pass finds more than 5000 overdue, every record found overdue
        at any of its own readings. */
    method CollectTargets(tenantId: string) returns (targets: seq<ExecutionRecord>, ghost at: Readings)
      requires ValidStore(store.State()) && tenantId != ""
      modifies clock
      ensures clock.last >= old(clock.last)
      ensures Collected(store.State(), tenantId, targets)
      ensures TakenAt(store.State(), tenantId, targets, at, old(clock.last), clock.last, confirmTimeout)
    {
      ghost var first, second, third;
      var general, overdue;
      general, first, second := ListReconciliationTargets(tenantId, TARGET_LIMIT);
      ghost var middle := clock.last;
      var seen: set<string>;
      assert Ids([]) == {};
      targets, seen := AddUnseen([], {}, general.value);
      overdue, third := ListOverdueTargets(tenantId, OVERDUE_LIMIT);
      targets, seen := AddUnseen(targets, seen, overdue.value);
      at := Readings(first, second, third);
      TimelinesJoin(first + second, third, old(clock.last), middle, clock.last);
      TakenIsCollected(store.State(), tenantId, at, old(clock.last), clock.last, confirmTimeout);
    }

    /** Settles one open record by what the provider says of its transaction. */
    method ReconcileOne(record: ExecutionRecord, f: ReconcileFaults) returns (verdict: Verdict)
      requires Holds(record) && Wanted(record.status) && LedgerValid(Books())
      modifies store`executions, store`operations, store`audit, provider, clock
      ensures clock.last >= old(clock.last)
      ensures ReconciledOne(Settings(), record, f, old(store.State()), old(Books()), store.State(), Books(), verdict)
      ensures AnswerDecides(provider != null, record, old(Books()), f, store.executions[record.id.executionId], Books())
      ensures OtherRowsKept(record, old(Books()), Books())
      ensures ReportedAs(record, store.executions[record.id.executionId].status, old(store.State()), store.State(),
                         verdict)
    {
      ghost var s, l := store.State(), Books();
      verdict := SettleOne(record, f);
      OneIsDecided(Settings(), record, f, s, l, store.State(), Books(), verdict);
    }

    method SettleOne(record: ExecutionRecord, f: ReconcileFaults) returns (verdict: Verdict)
      requires Holds(record) && Wanted(record.status) && LedgerValid(Books())
      modifies store`executions, store`operations, store`audit, provider, clock
      ensures clock.last >= old(clock.last)
      ensures ReconciledOne(Settings(), record, f, old(store.State()), old(Books()), store.State(), Books(), verdict)
    {
      var overdue := IsOverdue(record);
      if record.externalTxnId.None? || provider == null {
        verdict := ReconcileMismatch(record);
        return;
      }
      var reply := provider.Query(record.id.tenantId, record.externalTxnId.value, f.query);
      verdict := SettleByAnswer(record, reply, f.compensate);
    }

    /** The record came out as this effect says, was committed with its operation, audited, and given its verdict. */
    ghost predicate CameOut(record: ExecutionRecord, e: Effect, s: StoreState, verdict: Verdict)
      requires record.id.operationId in s.operations
      reads store, provider
    {
      record.id.executionId in store.executions
      && var r := store.executions[record.id.executionId];
      && Timeless(r) == Timeless(e.record) && r.id == record.id && Books() == e.ledger
      && store.State() == Commit(s, r).(audit := s.audit + ReconcileAudit(r)) && verdict == VerdictOf(r.status)
    }

    method SettleByAnswer(record: ExecutionRecord, reply: QueryReply, fault: Fault) returns (verdict: Verdict)
      requires Holds(record) && Wanted(record.status)
      modifies store`executions, store`operations, store`audit, provider, clock
      ensures clock.last >= old(clock.last)
      ensures CameOut(record, AfterQuery(Settings(), record, old(Books()), reply, fault), old(store.State()), verdict)
    {
      if reply.Found? && Success(reply.txn.status) && CanTransition(record.status, Confirmed) {
        verdict := ReconcileConfirm(record, TxnReceipt(reply.txn));
      } else if reply.Found? && reply.txn.status in {WireFailed, WireRejected} {
        verdict := ReconcileFailure(record, fault);
      } else {
        verdict := ReconcileMismatch(record);
      }
    }

    method ReconcileFailure(record: ExecutionRecord, fault: Fault) returns (verdict: Verdict)
      requires Holds(record) && Wanted(record.status)
      modifies store`executions, store`operations, store`audit, provider, clock
      ensures clock.last >= old(clock.last)
      ensures CameOut(record, SettleEffect(Settings(), record, old(Books()), fault), old(store.State()), verdict)
    {
      SettleCloses(Settings(), record, Books(), fault);
      var r := SettleAfterDispatchFailure(record, fault);
      verdict := if r.status == CompensationFailed then SettledHandoff else SettledConfirmed;
    }

    method ReconcileConfirm(record: ExecutionRecord, receipt: Receipt) returns (verdict: Verdict)
      requires Holds(record) && CanTransition(record.status, Confirmed)
      modifies store`executions, store`operations, store`audit, clock
      ensures clock.last >= old(clock.last)
      ensures CameOut(record,
                      Effect(StampConfirmed(record.(status := Confirmed, receipt := Some(receipt)), 0.0), old(Books())),
                      old(store.State()), verdict)
    {
      var now := clock.Now();
      var r := Conclude(record, Confirmed, (q: ExecutionRecord) => StampConfirmed(q.(receipt := Some(receipt)), now),
                        Some(AuditReconcileConfirmed));
      verdict := SettledConfirmed;
    }

    method ReconcileMismatch(record: ExecutionRecord) returns (verdict: Verdict)
      requires Holds(record) && CanTransition(record.status, Mismatched)
      modifies store`executions, store`operations, store`audit, clock
      ensures clock.last >= old(clock.last)
      ensures CameOut(record, Effect(MismatchRecord(record), old(Books())), old(store.State()), verdict)
    {
      var now := clock.Now();
      var r := Conclude(record, Mismatched, (q: ExecutionRecord) => StampConfirmed(q, now),
                        Some(AuditReconcileMismatch));
      verdict := SettledMismatch;
    }

    /** One sweep: collects the open records, settles each, and counts how they ended. It never raises,
        whatever the store holds and whatever the provider answers. */
    method Reconcile(tenantId: string, env: string -> ReconcileFaults)
      returns (result: Result<ReconciliationResult>, ghost targets: seq<ExecutionRecord>, ghost at: Readings)
      requires Ready()
      modifies store, provider, clock
      ensures Ready() && (old(InOrder()) ==> InOrder())
      ensures tenantId == "" ==> result == Raised(Forbidden) && Unmoved(old(store.State()), old(Books()))
      ensures tenantId != "" ==>
                && result.Ok? && clock.last >= old(clock.last)
                && SweepDone(Settings(), old(store.State()), old(Books()), tenantId, targets, env,
                             store.State(), Books(), result.value)
                && EachDecided(provider != null, targets, env, old(Books()), store.State(), Books(),
                               result.value.details)
                && TakenAt(old(store.State()), tenantId, targets, at, old(clock.last), clock.last, confirmTimeout)
    {
      targets, at := [], Readings([], [], []);
      if tenantId == "" {
        return Raised(Forbidden), targets, at;
      }
      var tally: ReconciliationResult;
      ghost var s, l := store.State(), Books();
      tally, targets, at := Sweep(tenantId, env);
      SweepIsDecided(Settings(), s, l, targets, env, store.State(), Books(), tally.details);
      result := Ok(tally);
    }

    method Sweep(tenantId: string, env: string -> ReconcileFaults)
      returns (tally: ReconciliationResult, ghost targets: seq<ExecutionRecord>, ghost at: Readings)
      requires Ready() && tenantId != ""
      modifies store, provider, clock
      ensures Ready() && (old(InOrder()) ==> InOrder())
      ensures clock.last >= old(clock.last)
      ensures SweepDone(Settings(), old(store.State()), old(Books()), tenantId, targets, env, store.State(), Books(),
                        tally)
      ensures TakenAt(old(store.State()), tenantId, targets, at, old(clock.last), clock.last, confirmTimeout)
    {
      ghost var s := store.State();
      var todo: seq<ExecutionRecord>;
      todo, at := CollectTargets(tenantId);
      targets := todo;
      assert store.State() == s && Books() == old(Books());
      ghost var collected := clock.last;
      tally := SettleCollected(tenantId, todo, env);
      TakenLater(s, tenantId, todo, at, old(clock.last), collected, clock.last, confirmTimeout);
    }

    method SettleCollected(tenantId: string, targets: seq<ExecutionRecord>, env: string -> ReconcileFaults)
      returns (tally: ReconciliationResult)
      requires Ready() && Collected(store.State(), tenantId, targets)
      modifies store, provider, clock
      ensures clock.last >= old(clock.last) && Ready() && (old(InOrder()) ==> InOrder())
      ensures SweepDone(Settings(), old(store.State()), old(Books()), tenantId, targets, env, store.State(), Books(),
                        tally)
    {
      ghost var s, l := store.State(), Books();
      ListedAreTargets(s, tenantId, targets);
      tally := SettleAll(targets, env);
      SweepEnds(Settings(), s, l, tenantId, targets, env, store.State(), Books(), tally.details);
    }

    method SettleAll(targets: seq<ExecutionRecord>, env: string -> ReconcileFaults)
      returns (tally: ReconciliationResult)
      requires Ready() && TargetsOf(store.State(), targets)
      modifies store, provider, clock
      ensures clock.last >= old(clock.last) && Ready() && (old(InOrder()) ==> InOrder())
      ensures Swept(old(store.State()), old(Books()), targets, EffectsOf(Settings(), targets, old(Books()), env),
                    store.State(), Books(), tally.details)
      ensures Tallied(tally)
    {
      tally := SettleEach(targets, env);
      SweptKeepsOrder(Settings(), old(store.State()), old(Books()), targets, env, store.State(), Books(),
                      tally.details);
    }

    method SettleEach(targets: seq<ExecutionRecord>, env: string -> ReconcileFaults)
      returns (tally: ReconciliationResult)
      requires Ready() && TargetsOf(store.State(), targets)
      modifies store, provider, clock
      ensures clock.last >= old(clock.last)
      ensures Swept(old(store.State()), old(Books()), targets, EffectsOf(Settings(), targets, old(Books()), env),
                    store.State(), Books(), tally.details)
      ensures Tallied(tally)
    {
      ghost var s, l, effects := store.State(), Books(), EffectsOf(Settings(), targets, Books(), env);
      tally := ReconciliationResult(0, 0, 0, 0, []);
      SweepStarts(s, l, targets, effects);
      for i := 0 to |targets|
        invariant clock.last >= old(clock.last) && Tallied(tally)
        invariant SweptUpTo(s, l, targets, effects, i, store.State(), Books(), tally.details)
      {
        tally := SettleNext(targets, i, env, tally, s, l, effects);
      }
      SweepIsWhole(s, l, targets, effects, store.State(), Books(), tally.details);
    }

    /** One turn of the sweep's loop. */
    method SettleNext(targets: seq<ExecutionRecord>, i: nat, env: string -> ReconcileFaults,
                      tally: ReconciliationResult, ghost s: StoreState, ghost l: Ledger, ghost effects: seq<Effect>)
      returns (tally': ReconciliationResult)
      requires Linked(s) && LedgerValid(l) && TargetsOf(s, targets) && i < |targets|
      requires effects == EffectsOf(Settings(), targets, l, env)
      requires SweptUpTo(s, l, targets, effects, i, store.State(), Books(), tally.details) && Tallied(tally)
      modifies store, provider, clock
      ensures clock.last >= old(clock.last) && Tallied(tally')
      ensures SweptUpTo(s, l, targets, effects, i + 1, store.State(), Books(), tally'.details)
    {
      var r, f := targets[i], env(targets[i].id.executionId);
      ghost var s1, l1 := store.State(), Books();
      NextIsReady(s, l, targets, effects, i, s1, l1, tally.details);
      var verdict := ReconcileOne(r, f);
      SweptOneMore(Settings(), s, l, targets, env, i, s1, l1, tally.details, store.State(), Books(), verdict);
      ReportKeepsTally(tally, r.id.executionId, verdict);
      tally' := Report(tally, r.id.executionId, verdict);
    }

    /** The sweep run again and again with nothing in between: each run closes 200 open records or all of them,
        so ceil(n / 200) runs leave nothing open. */
    method ReconcileRepeatedly(tenantId: string, rounds: nat, env: nat -> string -> ReconcileFaults)
      requires Ready() && tenantId != ""
      modifies store, provider, clock
      ensures Ready() && (old(InOrder()) ==> InOrder())
      ensures |Open(store.State(), tenantId)| + 200 * rounds <= old(|Open(store.State(), tenantId)|)
              || Open(store.State(), tenantId) == {}
    {
      for n := 0 to rounds
        invariant Ready() && (old(InOrder()) ==> InOrder())
        invariant |Open(store.State(), tenantId)| + 200 * n <= old(|Open(store.State(), tenantId)|)
                  || Open(store.State(), tenantId) == {}
      {
        ghost var before := Open(store.State(), tenantId);
        var result, targets, at := Reconcile(tenantId, env(n));
        assert before == {} ==> Open(store.State(), tenantId) == {};
      }
    }

    // ----- manual compensation -----

    /** Reverses one execution by hand; a record already closed by a compensation is replayed. */
    method Compensate(tenantId: string, executionId: string, fault: Fault) returns (result: Result<CompensateReply>)
      requires forall id :: id in store.executions ==> store.executions[id].id.executionId == id
      modifies store`executions, store`audit, provider, clock
      ensures CompensateSpec(Settings(), tenantId, executionId, fault,
                             old(store.State()), old(Books()), store.State(), Books(), result)
      ensures CompensatedByHand(provider != null, tenantId, executionId, fault,
                                old(store.State()), old(Books()), store.State(), Books(), result)
    {
      result := ReverseByHand(tenantId, executionId, fault);
      CompensateIsPlain(Settings(), tenantId, executionId, fault,
                        old(store.State()), old(Books()), store.State(), Books(), result);
    }

    method ReverseByHand(tenantId: string, executionId: string, fault: Fault) returns (result: Result<CompensateReply>)
      requires forall id :: id in store.executions ==> store.executions[id].id.executionId == id
      modifies store`executions, store`audit, provider, clock
      ensures CompensateSpec(Settings(), tenantId, executionId, fault,
                             old(store.State()), old(Books()), store.State(), Books(), result)
    {
      if executionId !in store.executions || store.executions[executionId].id.tenantId != tenantId {
        return Raised(Error.NotFound);
      }
      var record := store.executions[executionId];
      if record.status in {Compensated, CompensationFailed} {
        return Ok(Replayed(record.status == Compensated));
      }
      var receipt := RequestReversal(record, fault);
      result := RecordReversal(record, receipt);
    }

    /** The move to COMPENSATED or COMPENSATION_FAILED, if the table allows it, and its audit row. */
    method RecordReversal(record: ExecutionRecord, receipt: Option<Receipt>) returns (result: Result<CompensateReply>)
      requires record.id.executionId in store.executions && store.executions[record.id.executionId] == record
      modifies store`executions, store`audit, clock
      ensures if !CanTransition(record.status, Reversed(record, receipt).status) then
                store.State() == old(store.State()) && result == Raised(IllegalTransition)
              else
                && record.id.executionId in store.executions
                && var r := store.executions[record.id.executionId];
                && Timeless(r) == Timeless(Reversed(record, receipt)) && r.id == record.id
                && store.State() == PutExecution(old(store.State()), r).(audit := old(store.audit) + SettleAudit(r))
                && result == Ok(Attempted(receipt))
    {
      var now := clock.Now();
      var moved: Result<ExecutionRecord>;
      if receipt.Some? {
        moved := Transition(record, Compensated, None,
                            (q: ExecutionRecord) => StampConfirmed(q.(compensationResult := receipt), now));
      } else {
        moved := Transition(record, CompensationFailed, None, (q: ExecutionRecord) => StampConfirmed(q, now));
      }
      if moved.Raised? {
        return Raised(moved.error);
      }
      store.AppendAudit(record.id.tenantId, if receipt.Some? then AuditCompensated else AuditCompensationFailed,
                        record.id.executionId);
      result := Ok(Attempted(receipt));
    }
  }
}
