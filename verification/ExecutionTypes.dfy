/** The execution state machine and the persistent facts of one execution
    (src/execution/types.py, src/core/types.py). */
module ExecutionTypes {
  import opened Wrappers

  datatype ExecutionMode = Shadow | Live

  datatype ExecutionStatus =
    | PendingSubmit
    | Submitted
    | Confirmed
    | FailedDispatched
    | FailedUncertain
    | Compensating
    | Compensated
    | CompensationFailed
    | Reconciling
    | Reconciled
    | Mismatched
    | HumanHandoff

  datatype OperationStatus = OpPending | OpExecuted | OpFailed | OpRejected | OpHandoff

  datatype PendingAction = Refund | ReturnRequest | ReturnAddress | Policy | Other

  /** The transition table: for each status, the statuses a record may move to. */
  predicate CanTransition(current: ExecutionStatus, next: ExecutionStatus) {
    match current
    case PendingSubmit =>
      next in {Submitted, Confirmed, FailedDispatched, FailedUncertain, Mismatched, HumanHandoff}
    case Submitted =>
      next in {Confirmed, FailedDispatched, FailedUncertain, Compensating, Reconciling, Mismatched, HumanHandoff}
    case FailedDispatched => next in {Compensating, Compensated, CompensationFailed, Mismatched, HumanHandoff}
    case FailedUncertain => next in {Confirmed, FailedDispatched, Reconciling, Mismatched, HumanHandoff}
    case Compensating => next in {Compensated, CompensationFailed, Mismatched, HumanHandoff}
    case Reconciling => next in {Confirmed, Compensated, Mismatched, HumanHandoff}
    case _ => false
  }

  predicate IsTerminal(s: ExecutionStatus) {
    s in {Confirmed, Compensated, CompensationFailed, Reconciled, Mismatched, HumanHandoff}
  }

  /** The status strings the external side sends; any other text is `WireOther`. */
  datatype WireStatus =
    | WireSucceeded
    | WireSuccess
    | WireConfirmed
    | WireFailed
    | WireRejected
    | WireRefunded
    | WireReversed
    | WireOther(text: string)

  /** Receipts, reduced to the identifier, amount and status they carry. */
  datatype Receipt = Receipt(reference: Option<string>, amount: Option<real>, status: WireStatus)

  /** The part of a record fixed when it is created. */
  datatype Identity = Identity(
    executionId: string,
    tenantId: string,
    operationId: string,
    pendingAction: PendingAction,
    orderId: string,
    idempotencyKey: string,
    mode: ExecutionMode,
    amount: Option<real>)

  datatype Times = Times(createdAt: real, updatedAt: real, submittedAt: Option<real>, confirmedAt: Option<real>)

  datatype ExecutionRecord = ExecutionRecord(
    id: Identity,
    status: ExecutionStatus,
    externalTxnId: Option<string>,
    callbackNonce: Option<string>,
    receipt: Option<Receipt>,
    compensationResult: Option<Receipt>,
    attempts: nat,
    times: Times)

  function Touch(r: ExecutionRecord, now: real): ExecutionRecord {
    r.(times := r.times.(updatedAt := now))
  }

  function StampSubmitted(r: ExecutionRecord, t: real): ExecutionRecord {
    r.(times := r.times.(submittedAt := Some(t)))
  }

  function StampConfirmed(r: ExecutionRecord, t: real): ExecutionRecord {
    r.(times := r.times.(confirmedAt := Some(t)))
  }

  /** A business operation; `result` keeps the `execution_status` entry of the result dictionary. */
  datatype Operation = Operation(
    operationId: string,
    tenantId: string,
    threadId: string,
    orderId: string,
    pendingAction: PendingAction,
    idempotencyKey: string,
    status: OperationStatus,
    result: Option<ExecutionStatus>)

  /** Why an atomic callback did what it did. */
  datatype Reason = Replay | TerminalLocked | AmountMismatch | Processing | ConfirmedByCallback | DispatchFailed

  /** The audit actions: `execution.create`, `execution.submit_uncertain`, and so on. */
  datatype AuditAction =
    | AuditCreate
    | AuditSubmitUncertain
    | AuditCompensated
    | AuditCompensationFailed
    | AuditReconcileConfirmed
    | AuditReconcileMismatch
    | AuditCallback(reason: Reason)

  datatype AuditRow = AuditRow(tenantId: string, action: AuditAction, targetId: string)

  // ----- the table as a graph -----

  /** How many status changes are still possible. */
  function Rank(s: ExecutionStatus): nat {
    match s
    case PendingSubmit => 5
    case Submitted => 4
    case FailedUncertain => 3
    case FailedDispatched => 2
    case Compensating => 1
    case Reconciling => 1
    case _ => 0
  }

  /** A history of statuses, each reached from the one before by a legal move. */
  ghost predicate LegalHistory(h: seq<ExecutionStatus>) {
    forall i :: 0 < i < |h| ==> CanTransition(h[i - 1], h[i])
  }

  /** The documented terminal statuses are exactly the ones the table closes. */
  lemma TerminalExactlyClosed(s: ExecutionStatus)
    ensures IsTerminal(s) <==> forall n :: !CanTransition(s, n)
  {
    if !IsTerminal(s) {
      assert CanTransition(s, Mismatched);
    }
  }

  lemma {:induction false} RankFalls(h: seq<ExecutionStatus>)
    requires |h| > 0 && LegalHistory(h)
    ensures Rank(h[|h| - 1]) + (|h| - 1) <= Rank(h[0])
  {
    if |h| > 1 {
      RankFalls(h[..|h| - 1]);
    }
  }

  /** No history can change status more than five times, no status ever comes back,
      and the bound is reached. */
  lemma StatusChangesAtMostFiveTimes(h: seq<ExecutionStatus>)
    requires |h| > 0 && LegalHistory(h)
    ensures |h| - 1 <= 5
    ensures forall i, j :: 0 <= i < j < |h| ==> h[i] != h[j]
    ensures LegalHistory([PendingSubmit, Submitted, FailedUncertain, FailedDispatched, Compensating, Compensated])
  {
    RankFalls(h);
    forall i, j | 0 <= i < j < |h|
      ensures h[i] != h[j]
    {
      RankFalls(h[i..j + 1]);
    }
  }
}
