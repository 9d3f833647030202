/** What `execute`, `reconcile`, callbacks and manual compensation come to, told by wire statuses, ledger rows and
    amounts alone (src/execution/engine.py, src/execution/sandbox_gateway.py). */
module Outcomes {
  import opened Wrappers
  import opened ExecutionTypes
  import opened CallbackPlan
  import opened MemoryStore
  import opened Gateway
  import opened ExecutionEffects
  import opened EngineSpec
  import opened Listings
  import opened ReconcileSweep

  /** The operation of a record in this status: handed to a human, or executed. */
  predicate OperationTells(op: Operation, status: ExecutionStatus) {
    && op.result == Some(status)
    && op.status == if status in {Mismatched, CompensationFailed, HumanHandoff} then OpHandoff else OpExecuted
  }

  /** A reversal was asked for under this fault: it is in the ledger if it was there or the request arrived, for the
      record's amount, and without a provider the ledger is left alone. */
  predicate AskedBack(hasProvider: bool, r: ExecutionRecord, fault: Fault, l: Ledger, l': Ledger) {
    var key := (r.id.tenantId, r.id.idempotencyKey, r.id.executionId);
    && l'.txns == l.txns
    && (key in l'.reversals <==> key in l.reversals || (hasProvider && fault != RequestLost))
    && (key in l.reversals ==> l'.reversals[key] == l.reversals[key])
    && (key !in l.reversals && key in l'.reversals ==>
          l'.reversals[key] == if r.id.amount.Some? then r.id.amount.value else 0.0)
  }

  predicate NotAskedBack(r: ExecutionRecord, l: Ledger, l': Ledger) {
    var key := (r.id.tenantId, r.id.idempotencyKey, r.id.executionId);
    && l'.txns == l.txns && (key in l'.reversals <==> key in l.reversals)
    && (key in l.reversals ==> l'.reversals[key] == l.reversals[key])
  }

  /** The reversals of other executions are as they were. */
  ghost predicate OtherRowsKept(r: ExecutionRecord, l: Ledger, l': Ledger) {
    forall k :: k != (r.id.tenantId, r.id.idempotencyKey, r.id.executionId) ==>
      (k in l'.reversals <==> k in l.reversals) && (k in l.reversals ==> l'.reversals[k] == l.reversals[k])
  }

  /** What asking back leaves the record in: compensated, with a receipt for what the ledger holds, if the answer came
      (or there is no provider), else with its compensation failed. */
  predicate ClosedByReversal(hasProvider: bool, r: ExecutionRecord, fault: Fault, q: ExecutionRecord, l': Ledger) {
    var key := (r.id.tenantId, r.id.idempotencyKey, r.id.executionId);
    if !hasProvider then
      && q.status == Compensated && q.compensationResult.Some? && q.compensationResult.value.status == WireReversed
      && q.compensationResult.value.amount == r.id.amount
    else if fault == Healthy then
      && q.status == Compensated && q.compensationResult.Some? && key in l'.reversals
      && q.compensationResult.value.amount == Some(l'.reversals[key])
      && q.compensationResult.value.status == WireReversed
    else q.status == CompensationFailed && q.compensationResult == r.compensationResult
  }

  // ----- reconciliation -----

  /** The tenant has a transaction of this id with one of these statuses. */
  ghost predicate Says(l: Ledger, tenantId: string, x: string, statuses: set<WireStatus>) {
    exists k :: k in l.txns && k.0 == tenantId && l.txns[k].externalTxnId == x && l.txns[k].status in statuses
  }

  /** The query about the record's transaction is answered by a row with one of these statuses. */
  ghost predicate Answered(hasProvider: bool, r: ExecutionRecord, l: Ledger, f: ReconcileFaults,
                           statuses: set<WireStatus>) {
    hasProvider && r.externalTxnId.Some? && f.query == Healthy
    && Says(l, r.id.tenantId, r.externalTxnId.value, statuses)
  }

  /** The provider's answer decides how an open record ends: confirmed on success, with that row's receipt and nothing
      asked back; compensated, or its compensation failed, on an explicit failure; a mismatch otherwise. (A failed
      dispatch cannot be confirmed any more, and a record in RECONCILING cannot be compensated.) */
  ghost predicate AnswerDecides(hasProvider: bool, r: ExecutionRecord, l: Ledger, f: ReconcileFaults,
                                q: ExecutionRecord, l': Ledger) {
    var done := Answered(hasProvider, r, l, f, {WireSucceeded, WireSuccess});
    var failed := Answered(hasProvider, r, l, f, {WireFailed, WireRejected});
    EndsAs(done, failed, r, q) && (q.status == Confirmed ==> ReceiptOfRow(l, r, q.receipt))
    && MoneyMoves(failed && r.status != Reconciling, r, f.compensate, l, q, l')
  }

  predicate EndsAs(done: bool, failed: bool, r: ExecutionRecord, q: ExecutionRecord) {
    && q.id == r.id && q.externalTxnId == r.externalTxnId
    && (q.status == Confirmed <==> done && r.status != FailedDispatched)
    && (q.status in {Compensated, CompensationFailed} <==> failed && r.status != Reconciling)
    && (q.status == HumanHandoff <==> failed && r.status == Reconciling)
    && (q.status == Mismatched <==> !failed && (!done || r.status == FailedDispatched))
  }

  /** The money is asked back, and the record closed by that; or neither. */
  predicate MoneyMoves(back: bool, r: ExecutionRecord, fault: Fault, l: Ledger, q: ExecutionRecord, l': Ledger) {
    if back then AskedBack(true, r, fault, l, l') && ClosedByReversal(true, r, fault, q, l')
    else NotAskedBack(r, l, l') && q.compensationResult == r.compensationResult
  }

  ghost predicate ReceiptOfRow(l: Ledger, r: ExecutionRecord, receipt: Option<Receipt>) {
    exists k :: k in l.txns && k.0 == r.id.tenantId && Some(l.txns[k].externalTxnId) == r.externalTxnId
                && receipt == Some(Receipt(r.externalTxnId, Some(l.txns[k].amount), l.txns[k].status))
  }

  /** Rows of a tenant with one external id are one row. */
  lemma SaysOnce(l: Ledger, tenantId: string, x: string, t: Txn, statuses: set<WireStatus>)
    requires LedgerValid(l) && FindTxn(l.txns, tenantId, x) == Some(t)
    ensures Says(l, tenantId, x, statuses) <==> t.status in statuses
  {
    var k :| k in l.txns && k.0 == tenantId && l.txns[k] == t;
    assert Says(l, tenantId, x, statuses) ==> t.status in statuses;
  }

  lemma NoRowSaysNothing(l: Ledger, tenantId: string, x: string, statuses: set<WireStatus>)
    requires FindTxn(l.txns, tenantId, x).None?
    ensures !Says(l, tenantId, x, statuses)
  {
  }

  lemma FailureIsSettled(c: Config, r: ExecutionRecord, l: Ledger, fault: Fault)
    requires r.status in {PendingSubmit, Submitted, FailedUncertain, FailedDispatched}
    ensures var e := SettleEffect(c, r, l, fault);
            && AskedBack(c.hasProvider, r, fault, l, e.ledger)
            && ClosedByReversal(c.hasProvider, r, fault, e.record, e.ledger)
            && e.record.id == r.id && e.record.externalTxnId == r.externalTxnId
  {
  }

  /** The effect of reconciling one record is what the provider's answer decides. */
  lemma EffectIsDecided(c: Config, r: ExecutionRecord, l: Ledger, f: ReconcileFaults)
    requires LedgerValid(l) && r.status in {Submitted, FailedUncertain, Reconciling, FailedDispatched}
    ensures var e := ReconcileEffect(c, r, l, f); AnswerDecides(c.hasProvider, r, l, f, e.record, e.ledger)
  {
    if r.externalTxnId.Some? && c.hasProvider && f.query == Healthy {
      var t := FindTxn(l.txns, r.id.tenantId, r.externalTxnId.value);
      if t.Some? {
        FoundIsDecided(c, r, l, f, t.value);
      } else {
        NoRowSaysNothing(l, r.id.tenantId, r.externalTxnId.value, {WireSucceeded, WireSuccess});
        NoRowSaysNothing(l, r.id.tenantId, r.externalTxnId.value, {WireFailed, WireRejected});
      }
    }
  }

  lemma FoundIsDecided(c: Config, r: ExecutionRecord, l: Ledger, f: ReconcileFaults, t: Txn)
    requires LedgerValid(l) && r.status in {Submitted, FailedUncertain, Reconciling, FailedDispatched}
    requires r.externalTxnId.Some? && c.hasProvider && f.query == Healthy
    requires FindTxn(l.txns, r.id.tenantId, r.externalTxnId.value) == Some(t)
    ensures var e := ReconcileEffect(c, r, l, f); AnswerDecides(c.hasProvider, r, l, f, e.record, e.ledger)
  {
    var x := r.externalTxnId.value;
    SaysOnce(l, r.id.tenantId, x, t, {WireSucceeded, WireSuccess});
    SaysOnce(l, r.id.tenantId, x, t, {WireFailed, WireRejected});
    RowDecides(c, r, l, t, f.compensate);
  }

  /** What a row found for the record makes of it. */
  lemma RowDecides(c: Config, r: ExecutionRecord, l: Ledger, t: Txn, fault: Fault)
    requires r.status in {Submitted, FailedUncertain, Reconciling, FailedDispatched} && r.externalTxnId.Some?
    requires c.hasProvider && FindTxn(l.txns, r.id.tenantId, r.externalTxnId.value) == Some(t)
    ensures var e := AfterQuery(c, r, l, Found(t), fault);
            var done, failed := t.status in {WireSucceeded, WireSuccess}, t.status in {WireFailed, WireRejected};
            EndsAs(done, failed, r, e.record) && (e.record.status == Confirmed ==> ReceiptOfRow(l, r, e.record.receipt))
            && MoneyMoves(failed && r.status != Reconciling, r, fault, l, e.record, e.ledger)
  {
    if t.status in {WireFailed, WireRejected} && r.status != Reconciling {
      FailureIsSettled(c, r, l, fault);
    } else {
      var k :| k in l.txns && k.0 == r.id.tenantId && l.txns[k] == t;
      assert ReceiptOfRow(l, r, Some(Receipt(r.externalTxnId, Some(l.txns[k].amount), l.txns[k].status)));
    }
  }

  /** Clock fields do not matter to how a record ended. */
  lemma DecidedTimeless(hasProvider: bool, r: ExecutionRecord, l: Ledger, f: ReconcileFaults, e: Effect,
                        q: ExecutionRecord, l': Ledger)
    requires AnswerDecides(hasProvider, r, l, f, e.record, e.ledger)
    requires q.id == r.id && Timeless(q) == Timeless(e.record) && SameReversal(r, l', e.ledger) && l'.txns == l.txns
    ensures AnswerDecides(hasProvider, r, l, f, q, l')
  {
    assert q.status == Timeless(q).status && q.receipt == Timeless(q).receipt;
    assert q.compensationResult == Timeless(q).compensationResult && q.externalTxnId == Timeless(q).externalTxnId;
  }

  function ReconcileActions(status: ExecutionStatus): seq<AuditAction> {
    if status == Confirmed then [AuditReconcileConfirmed]
    else if status == Mismatched then [AuditReconcileMismatch]
    else if status == Compensated then [AuditCompensated]
    else if status == CompensationFailed then [AuditCompensationFailed]
    else []
  }

  /** How a reconciled record is told to its operation, to the audit log, and to the report of the sweep. */
  ghost predicate ReportedAs(r: ExecutionRecord, status: ExecutionStatus, s: StoreState, s': StoreState,
                             verdict: Verdict) {
    && r.id.operationId in s'.operations && OperationTells(s'.operations[r.id.operationId], status)
    && Logged(r, s, s', ReconcileActions(status))
    && (verdict == SettledMismatch <==> status == Mismatched)
    && (verdict == SettledHandoff <==> status == CompensationFailed)
  }

  /** These audit rows about the record were added, and no others. */
  predicate Logged(r: ExecutionRecord, s: StoreState, s': StoreState, actions: seq<AuditAction>) {
    && |s'.audit| == |s.audit| + |actions| && s.audit <= s'.audit
    && forall i :: 0 <= i < |actions| ==>
         s'.audit[|s.audit| + i] == AuditRow(r.id.tenantId, actions[i], r.id.executionId)
  }

  /** `_reconcile_one` in these terms. */
  lemma OneIsDecided(c: Config, r: ExecutionRecord, f: ReconcileFaults, s: StoreState, l: Ledger,
                     s': StoreState, l': Ledger, verdict: Verdict)
    requires LedgerValid(l) && r.status in {Submitted, FailedUncertain, Reconciling, FailedDispatched}
    requires ReconciledOne(c, r, f, s, l, s', l', verdict)
    ensures AnswerDecides(c.hasProvider, r, l, f, s'.executions[r.id.executionId], l') && OtherRowsKept(r, l, l')
    ensures ReportedAs(r, s'.executions[r.id.executionId].status, s, s', verdict)
  {
    var e, q := ReconcileEffect(c, r, l, f), s'.executions[r.id.executionId];
    EffectIsDecided(c, r, l, f);
    EndingIsKnown(c.hasProvider, r, l, f, e);
    DecidedTimeless(c.hasProvider, r, l, f, e, q, l');
    OneIsReported(r, e.record.status, s, q, s', verdict);
    ReconcileCloses(c, r, l, f);
  }

  lemma EndingIsKnown(hasProvider: bool, r: ExecutionRecord, l: Ledger, f: ReconcileFaults, e: Effect)
    requires AnswerDecides(hasProvider, r, l, f, e.record, e.ledger)
    ensures e.record.status in {Confirmed, Compensated, CompensationFailed, HumanHandoff, Mismatched}
  {
  }

  lemma OneIsReported(r: ExecutionRecord, status: ExecutionStatus, s: StoreState, q: ExecutionRecord, s': StoreState,
                      verdict: Verdict)
    requires q.id == r.id && q.status == status && r.id.operationId in s.operations
    requires status in {Confirmed, Compensated, CompensationFailed, HumanHandoff, Mismatched}
    requires s' == Commit(s, q).(audit := s.audit + ReconcileAudit(q)) && verdict == VerdictOf(q.status)
    ensures ReportedAs(r, status, s, s', verdict)
  {
  }

  /** A target of a sweep ended as the answer about it decides, against the ledger before the sweep, and operation and
      report say so. */
  ghost predicate TargetDecided(hasProvider: bool, r: ExecutionRecord, f: ReconcileFaults, l: Ledger,
                                s': StoreState, l': Ledger, detail: (string, Verdict)) {
    && r.id.executionId in s'.executions && r.id.operationId in s'.operations
    && var q := s'.executions[r.id.executionId];
    && AnswerDecides(hasProvider, r, l, f, q, l')
    && OperationTells(s'.operations[r.id.operationId], q.status)
    && detail.0 == r.id.executionId
    && (detail.1 == SettledMismatch <==> q.status == Mismatched)
    && (detail.1 == SettledHandoff <==> q.status == CompensationFailed)
  }

  ghost predicate EachDecided(hasProvider: bool, targets: seq<ExecutionRecord>, env: string -> ReconcileFaults,
                              l: Ledger, s': StoreState, l': Ledger, details: seq<(string, Verdict)>) {
    && |details| == |targets|
    && forall i :: 0 <= i < |targets| ==>
         TargetDecided(hasProvider, targets[i], env(targets[i].id.executionId), l, s', l', details[i])
  }

  lemma SweepIsDecided(c: Config, s: StoreState, l: Ledger, targets: seq<ExecutionRecord>,
                       env: string -> ReconcileFaults, s': StoreState, l': Ledger, details: seq<(string, Verdict)>)
    requires LedgerValid(l) && TargetsOf(s, targets)
    requires Swept(s, l, targets, EffectsOf(c, targets, l, env), s', l', details)
    ensures EachDecided(c.hasProvider, targets, env, l, s', l', details)
  {
    forall i | 0 <= i < |targets|
      ensures TargetDecided(c.hasProvider, targets[i], env(targets[i].id.executionId), l, s', l', details[i])
    {
      TargetIsDecided(c, targets[i], env(targets[i].id.executionId), s, l, s', l', details[i]);
    }
  }

  lemma TargetIsDecided(c: Config, r: ExecutionRecord, f: ReconcileFaults, s: StoreState, l: Ledger, s': StoreState,
                        l': Ledger, detail: (string, Verdict))
    requires LedgerValid(l) && r.status in {Submitted, FailedUncertain, Reconciling, FailedDispatched}
    requires r.id.operationId in s.operations && l'.txns == l.txns
    requires SweptRecord(r, ReconcileEffect(c, r, l, f), s, s', l', detail)
    ensures TargetDecided(c.hasProvider, r, f, l, s', l', detail)
  {
    var e := ReconcileEffect(c, r, l, f);
    EffectIsDecided(c, r, l, f);
    EndingIsKnown(c.hasProvider, r, l, f, e);
    DecidedTimeless(c.hasProvider, r, l, f, e, s'.executions[r.id.executionId], l');
  }

  // ----- execution -----

  /** The one operation an execution already exists for: its stored result is told again, and nothing else happens. */
  predicate Repeated(op: Operation, r: ExecutionRecord, s: StoreState, l: Ledger, s': StoreState, l': Ledger,
                     result: Result<ExecutionOutcome>)
    requires op.operationId in s.operations
  {
    && s' == s && l' == l
    && result == Ok(ExecutionOutcome(r.id.executionId, op.operationId, r.status, r.id.mode,
                                     s.operations[op.operationId].status, r.receipt, r.externalTxnId,
                                     r.status in {HumanHandoff, Mismatched}))
  }

  /** What a live submission does to the ledger: a row that was there stays, else one is added with this amount and the
      gateway's verdict, unless the request is lost. */
  predicate RowSubmitted(key: (string, string), amount: real, env: SubmitEnv, l: Ledger, l': Ledger) {
    if key in l.txns || env.submitFault == RequestLost then l'.txns == l.txns
    else l'.txns == l.txns[key := Txn(env.freshTxnId, amount, env.status)]
  }

  /** How a live execution ends, by the row the gateway answers with; the reversals before are those of `l`. */
  predicate EndsByRow(r: ExecutionRecord, env: SubmitEnv, l: Ledger, l': Ledger) {
    var key := (r.id.tenantId, r.id.idempotencyKey);
    if env.submitFault != Healthy then
      && r.status == FailedUncertain && r.externalTxnId.None? && r.receipt.None? && l'.reversals == l.reversals
    else
      && key in l'.txns
      && var row := l'.txns[key];
      && (row.externalTxnId != "" ==> r.externalTxnId == Some(row.externalTxnId))
      && if row.status == WireSucceeded || row.status == WireSuccess then
           && r.status == ExecutionStatus.Submitted && l'.reversals == l.reversals
           && r.receipt == Some(Receipt(Some(row.externalTxnId), Some(row.amount), row.status))
         else
           && r.receipt.None?
           && (r.status == Compensated <==> env.compensateFault == Healthy)
           && (r.status == CompensationFailed <==> env.compensateFault != Healthy)
           && ReversedFor(r, env.compensateFault, l, l')
  }

  /** The reversal of a refused submission: one row at most, for the record's amount. */
  predicate ReversedFor(r: ExecutionRecord, fault: Fault, l: Ledger, l': Ledger) {
    var key := (r.id.tenantId, r.id.idempotencyKey, r.id.executionId);
    if key in l.reversals || fault == RequestLost then l'.reversals == l.reversals
    else l'.reversals == l.reversals[key := if r.id.amount.Some? then r.id.amount.value else 0.0]
  }

  /** What the caller of a first execution is told about the record. */
  predicate ToldOf(r: ExecutionRecord, result: Result<ExecutionOutcome>) {
    && result.Ok? && result.value.executionId == r.id.executionId && result.value.operationId == r.id.operationId
    && result.value.status == r.status && result.value.mode == r.id.mode
    && result.value.operationStatus == (if r.status == CompensationFailed then OpHandoff else OpExecuted)
    && (result.value.humanHandoff <==> r.status == CompensationFailed)
    && result.value.receipt == (if r.status == Compensated then r.compensationResult else r.receipt)
    && (r.status in {Compensated, CompensationFailed} || result.value.externalTxnId == r.externalTxnId)
  }

  function ExecuteActions(status: ExecutionStatus): seq<AuditAction> {
    [AuditCreate]
    + if status == FailedUncertain then [AuditSubmitUncertain]
      else if status == Compensated then [AuditCompensated]
      else if status == CompensationFailed then [AuditCompensationFailed]
      else []
  }

  /** The whole of one `execute`. A refund without a positive order total raises and leaves no trace; otherwise the
      record is created for exactly the order's total (nothing, for the other actions). In shadow mode it is confirmed
      at once without touching the ledger; live, exactly that amount is submitted, and the gateway's row decides. */
  predicate Executed(hasProvider: bool, op: Operation, orderTotal: Option<real>, m: ExecutionMode, freshId: string,
                     env: SubmitEnv, s: StoreState, l: Ledger, s': StoreState, l': Ledger,
                     result: Result<ExecutionOutcome>)
  {
    if op.pendingAction == Refund && (orderTotal.None? || orderTotal.value <= 0.0) then
      s' == s && l' == l && result == Raised(AmountInvalid)
    else
      && freshId in s'.executions
      && var r := s'.executions[freshId];
      && r.id == Identity(freshId, op.tenantId, op.operationId, op.pendingAction, op.orderId, op.idempotencyKey, m,
                          if op.pendingAction == Refund then orderTotal else None)
      && if m == Live && !hasProvider then LeftPending(r, s, l, s', l', result)
         else
           && Told(r, s, s', result)
           && if m == Shadow then ConfirmedInShadow(r, l, l')
              else SubmittedLive(r, if op.pendingAction == Refund then orderTotal.value else 0.0, env, l, l')
  }

  predicate LeftPending(r: ExecutionRecord, s: StoreState, l: Ledger, s': StoreState, l': Ledger,
                        result: Result<ExecutionOutcome>) {
    && r.status == PendingSubmit && r.attempts == 0 && l' == l && result == Raised(ProviderMissing)
    && Logged(r, s, s', [AuditCreate])
  }

  predicate Told(r: ExecutionRecord, s: StoreState, s': StoreState, result: Result<ExecutionOutcome>) {
    && ToldOf(r, result) && Logged(r, s, s', ExecuteActions(r.status))
    && r.id.operationId in s'.operations && OperationTells(s'.operations[r.id.operationId], r.status)
  }

  predicate ConfirmedInShadow(r: ExecutionRecord, l: Ledger, l': Ledger) {
    && l' == l && r.status == Confirmed && r.receipt.Some?
    && r.receipt.value.amount == r.id.amount && r.receipt.value.status == WireSucceeded
  }

  predicate SubmittedLive(r: ExecutionRecord, amount: real, env: SubmitEnv, l: Ledger, l': Ledger) {
    && r.attempts == 1 && RowSubmitted((r.id.tenantId, r.id.idempotencyKey), amount, env, l, l')
    && EndsByRow(r, env, l, l')
  }

  lemma LiveEndsByRow(c: Config, r0: ExecutionRecord, l: Ledger, env: SubmitEnv)
    requires c.hasProvider && r0.status == PendingSubmit && r0.externalTxnId.None? && r0.receipt.None?
    ensures var e := SubmitEffect(c, r0, l, env);
            SubmittedLive(e.record, if r0.id.amount.Some? then r0.id.amount.value else 0.0, env, l, e.ledger)
            && e.record.id == r0.id && e.record.status in {FailedUncertain, Submitted, Compensated, CompensationFailed}
  {
    var key := (r0.id.tenantId, r0.id.idempotencyKey);
    var amount := if r0.id.amount.Some? then r0.id.amount.value else 0.0;
    var l' := if env.submitFault == RequestLost then l else InsertTxn(l, key, Txn(env.freshTxnId, amount, env.status));
    assert RowSubmitted(key, amount, env, l, l');
    if env.submitFault == Healthy {
      AnswerEndsByRow(c, r0.(attempts := 1), l', env);
    }
  }

  /** A record whose submission was answered by this row. */
  lemma AnswerEndsByRow(c: Config, r: ExecutionRecord, l: Ledger, env: SubmitEnv)
    requires c.hasProvider && r.status == PendingSubmit && r.externalTxnId.None? && r.receipt.None?
    requires env.submitFault == Healthy && (r.id.tenantId, r.id.idempotencyKey) in l.txns
    ensures var e := AfterSubmit(c, r, l, Some(l.txns[(r.id.tenantId, r.id.idempotencyKey)]), env.compensateFault);
            && EndsByRow(e.record, env, l, e.ledger) && e.ledger.txns == l.txns
            && e.record.id == r.id && e.record.attempts == r.attempts
            && e.record.status in {Submitted, Compensated, CompensationFailed}
  {
  }

  lemma EndsTimeless(r: ExecutionRecord, q: ExecutionRecord, amount: real, env: SubmitEnv, l: Ledger, l': Ledger)
    requires Timeless(q) == Timeless(r) && q.id == r.id && SubmittedLive(r, amount, env, l, l')
    ensures SubmittedLive(q, amount, env, l, l')
  {
    SameButTimes(r, q);
  }

  lemma SameButTimes(r: ExecutionRecord, q: ExecutionRecord)
    requires Timeless(q) == Timeless(r)
    ensures q == r.(times := q.times)
  {
    assert q == Timeless(q).(times := q.times) && r == Timeless(r).(times := r.times);
  }

  lemma FirstIsExecuted(c: Config, op: Operation, orderTotal: Option<real>, m: ExecutionMode, freshId: string,
                        env: SubmitEnv, s: StoreState, l: Ledger, s': StoreState, l': Ledger,
                        result: Result<ExecutionOutcome>)
    requires op.operationId in s.operations
    requires op.pendingAction == Refund ==> orderTotal.Some? && orderTotal.value > 0.0
    requires FirstExecution(c, NewRecord(op, m, if op.pendingAction == Refund then orderTotal else None, 0.0, freshId),
                            env, s, l, s', l', result)
    ensures Executed(c.hasProvider, op, orderTotal, m, freshId, env, s, l, s', l', result)
  {
    var r0 := NewRecord(op, m, if op.pendingAction == Refund then orderTotal else None, 0.0, freshId);
    var r := s'.executions[freshId];
    if m == Live && !c.hasProvider {
      SameButTimes(r0, r);
    } else {
      var e := ExecuteEffect(c, r0, l, env);
      SameButTimes(e.record, r);
      if m == Live {
        LiveEndsByRow(c, r0, l, env);
        EndsTimeless(e.record, r, if op.pendingAction == Refund then orderTotal.value else 0.0, env, l, l');
      }
      FirstIsTold(r, s, l', s', result);
    }
  }

  lemma FirstIsTold(r: ExecutionRecord, s: StoreState, l': Ledger, s': StoreState, result: Result<ExecutionOutcome>)
    requires r.status in {FailedUncertain, Submitted, Compensated, CompensationFailed, Confirmed}
    requires r.id.operationId in s.operations && result == Ok(FirstOutcome(r))
    requires r.status in {FailedUncertain, CompensationFailed} ==> r.receipt.None?
    requires s' == Commit(InsertExecution(s, r), r).(audit := s.audit + ExecuteAudit(r))
    ensures Told(r, s, s', result)
  {
  }

  /** `execute` in these terms. */
  lemma ExecuteIsPlain(c: Config, op: Operation, orderTotal: Option<real>, m: ExecutionMode, freshId: string,
                       env: SubmitEnv, s: StoreState, l: Ledger, s': StoreState, l': Ledger,
                       result: Result<ExecutionOutcome>)
    requires ValidStore(s) && op.operationId in s.operations
    requires ExecuteSpec(c, op, ResolveAmount(op.pendingAction, orderTotal), m, freshId, env, s, l, s', l', result)
    ensures if (op.tenantId, op.operationId) in s.executionByOperation then
              Repeated(op, s.executions[s.executionByOperation[(op.tenantId, op.operationId)]], s, l, s', l', result)
            else Executed(c.hasProvider, op, orderTotal, m, freshId, env, s, l, s', l', result)
  {
    if (op.tenantId, op.operationId) !in s.executionByOperation
       && ResolveAmount(op.pendingAction, orderTotal).Ok? {
      FirstIsExecuted(c, op, orderTotal, m, freshId, env, s, l, s', l', result);
    }
  }

  /** A first execution finds the ledger without a row of its key: the row that its submission adds is its own. */
  lemma FirstAddsTheRow(c: Config, op: Operation, orderTotal: Option<real>, m: ExecutionMode, freshId: string,
                        env: SubmitEnv, s: StoreState, l: Ledger, s': StoreState, l': Ledger,
                        result: Result<ExecutionOutcome>)
    requires Consistent(c.hasProvider, s, l) && op.operationId in s.operations && freshId !in s.executions
    requires SameOperation(s.operations[op.operationId], op)
    requires (op.tenantId, op.operationId) !in s.executionByOperation
    requires Executed(c.hasProvider, op, orderTotal, m, freshId, env, s, l, s', l', result)
    requires op.pendingAction == Refund ==> orderTotal.Some? && orderTotal.value > 0.0
    requires m == Live && c.hasProvider && env.submitFault != RequestLost
    ensures (op.tenantId, op.idempotencyKey) !in l.txns
    ensures l'.txns == l.txns[(op.tenantId, op.idempotencyKey) :=
                                Txn(env.freshTxnId, if op.pendingAction == Refund then orderTotal.value else 0.0,
                                    env.status)]
  {
    NothingBeforeExecution(c.hasProvider, s, l, op, freshId);
  }

  // ----- callbacks -----

  /** A record that still listens to this callback: it is open, and has not booked this nonce. */
  predicate Listens(r: ExecutionRecord, nonce: string) {
    && r.callbackNonce != Some(nonce)
    && r.status !in {Confirmed, Compensated, CompensationFailed, Reconciled, Mismatched, HumanHandoff}
  }

  predicate OtherAmount(r: ExecutionRecord, p: Payload) {
    p.amount.Some? && r.id.amount.Some? && p.amount != r.id.amount
  }

  predicate ReportsDone(p: Payload) {
    p.status in {Some(WireSucceeded), Some(WireSuccess), Some(WireConfirmed)}
  }

  predicate ReportsFailure(p: Payload) {
    p.status in {Some(WireFailed), Some(WireRejected), Some(WireRefunded)}
  }

  predicate Disagrees(r: ExecutionRecord, b: CallbackBody) {
    Listens(r, b.nonce) && OtherAmount(r, b.payload)
  }

  predicate ConfirmsIt(r: ExecutionRecord, b: CallbackBody) {
    && Listens(r, b.nonce) && !OtherAmount(r, b.payload) && ReportsDone(b.payload)
    && r.status in {PendingSubmit, Submitted, FailedUncertain, Reconciling}
  }

  predicate FailsIt(r: ExecutionRecord, b: CallbackBody) {
    && Listens(r, b.nonce) && !OtherAmount(r, b.payload) && ReportsFailure(b.payload)
    && r.status in {PendingSubmit, Submitted, FailedUncertain}
  }

  /** Nothing the record can be moved by: the nonce is booked, and that is all. */
  predicate OnlyBooks(r: ExecutionRecord, b: CallbackBody) {
    && Listens(r, b.nonce) && !OtherAmount(r, b.payload) && !ReportsDone(b.payload)
    && (ReportsFailure(b.payload) ==> r.status == FailedDispatched)
  }

  /** What a callback about this record makes of it and of the ledger. */
  ghost predicate CallbackDecides(hasProvider: bool, r: ExecutionRecord, b: CallbackBody, fault: Fault, l: Ledger,
                                  q: ExecutionRecord, l': Ledger) {
    && q.id == r.id && q.externalTxnId == r.externalTxnId && q.attempts == r.attempts
    && q.callbackNonce == (if Disagrees(r, b) || ConfirmsIt(r, b) || FailsIt(r, b) || OnlyBooks(r, b)
                           then Some(b.nonce) else r.callbackNonce)
    && (ConfirmsIt(r, b) ==> q.status == Confirmed && ConfirmedReceipt(r, b.payload, q.receipt))
    && (Disagrees(r, b) ==> q.status == Mismatched)
    && (FailsIt(r, b) ==> AskedBack(hasProvider, r, fault, l, l') && OtherRowsKept(r, l, l')
                          && ClosedByReversal(hasProvider, r, fault, q, l'))
    && (!ConfirmsIt(r, b) ==> q.receipt == r.receipt)
    && (!FailsIt(r, b) ==> l' == l && q.compensationResult == r.compensationResult)
    && (!ConfirmsIt(r, b) && !Disagrees(r, b) && !FailsIt(r, b) ==> q.status == r.status)
  }

  /** The receipt of a confirmation: the reported id, unless it is empty, before the recorded one; the recorded amount,
      unless it is zero, before the reported one. */
  predicate ConfirmedReceipt(r: ExecutionRecord, p: Payload, receipt: Option<Receipt>) {
    && receipt.Some? && receipt.value.status == WireSucceeded
    && receipt.value.reference == (if p.externalTxnId in {None, Some("")} then r.externalTxnId else p.externalTxnId)
    && receipt.value.amount == (if r.id.amount in {None, Some(0.0)} then p.amount else r.id.amount)
  }

  /** The reason the caller is given. */
  predicate ReasonedAs(r: ExecutionRecord, b: CallbackBody, reason: Reason) {
    && (reason == Replay <==> r.callbackNonce == Some(b.nonce))
    && (reason == ConfirmedByCallback <==> ConfirmsIt(r, b)) && (reason == DispatchFailed <==> FailsIt(r, b))
    && (reason == AmountMismatch <==> Disagrees(r, b)) && (reason == Processing <==> OnlyBooks(r, b))
  }

  /** What operation, audit log and caller are told. */
  predicate CallbackTells(r: ExecutionRecord, b: CallbackBody, q: ExecutionRecord, s: StoreState, s': StoreState,
                          result: CallbackResult)
    requires r.id.operationId in s.operations
  {
    && r.id.operationId in s'.operations && result.Handled? && result.status == q.status
    && (result.applied <==> ConfirmsIt(r, b) || FailsIt(r, b))
    && result.receipt == (if ConfirmsIt(r, b) || FailsIt(r, b) then q.receipt else None)
    && (if ConfirmsIt(r, b) || Disagrees(r, b) || FailsIt(r, b) then
          OperationTells(s'.operations[r.id.operationId], q.status) && Logged(r, s, s', CallbackActions(r, b, q.status))
        else
          s'.operations[r.id.operationId] == s.operations[r.id.operationId] && s'.audit == s.audit)
    && ReasonedAs(r, b, result.reason)
  }

  function CallbackActions(r: ExecutionRecord, b: CallbackBody, ending: ExecutionStatus): seq<AuditAction> {
    if ConfirmsIt(r, b) then [AuditCallback(ConfirmedByCallback)]
    else if Disagrees(r, b) then [AuditCallback(AmountMismatch)]
    else [AuditCallback(DispatchFailed), if ending == Compensated then AuditCompensated else AuditCompensationFailed]
  }

  /** The plan is the one the wire words, the amounts and the nonce call for. */
  lemma PlanIsPlain(r: ExecutionRecord, b: CallbackBody)
    ensures ReasonedAs(r, b, MakePlan(r, b.nonce, b.payload).reason)
  {
    PlanMoves(r, b);
    PlanStays(r, b);
  }

  lemma PlanMoves(r: ExecutionRecord, b: CallbackBody)
    ensures MakePlan(r, b.nonce, b.payload).reason == ConfirmedByCallback <==> ConfirmsIt(r, b)
    ensures MakePlan(r, b.nonce, b.payload).reason == DispatchFailed <==> FailsIt(r, b)
  {
  }

  lemma PlanStays(r: ExecutionRecord, b: CallbackBody)
    ensures MakePlan(r, b.nonce, b.payload).reason == Replay <==> r.callbackNonce == Some(b.nonce)
    ensures MakePlan(r, b.nonce, b.payload).reason == AmountMismatch <==> Disagrees(r, b)
    ensures MakePlan(r, b.nonce, b.payload).reason == Processing <==> OnlyBooks(r, b)
  {
  }

  /** The nonce the caller is told of: the one booked before, unless this one is booked or nothing was. */
  lemma ClaimIsPlain(r: ExecutionRecord, b: CallbackBody)
    ensures MakePlan(r, b.nonce, b.payload).claimedNonce
         == if Disagrees(r, b) || ConfirmsIt(r, b) || FailsIt(r, b) || OnlyBooks(r, b)
               || (Listens(r, b.nonce) && r.callbackNonce.None?)
            then Some(b.nonce) else r.callbackNonce
  {
    PlanIsPlain(r, b);
  }

  /** A located callback in these terms. */
  lemma CallbackIsPlain(c: Config, b: CallbackBody, fault: Fault, s: StoreState, l: Ledger, s': StoreState, l': Ledger,
                        result: CallbackResult)
    requires Linked(s) && b.executionId in s.executions && LocatedCallback(c, b, fault, s, l, s', l', result)
    ensures b.executionId in s'.executions
    ensures CallbackDecides(c.hasProvider, s.executions[b.executionId], b, fault, l, s'.executions[b.executionId], l')
    ensures CallbackTells(s.executions[b.executionId], b, s'.executions[b.executionId], s, s', result)
  {
    var r, q := s.executions[b.executionId], s'.executions[b.executionId];
    PlanIsPlain(r, b);
    if FailsIt(r, b) {
      FailureIsPlain(c, r, b, fault, s, l, q, s', l', result);
    } else {
      RewriteIsPlain(c.hasProvider, r, b, fault, s, l, q, s', result);
    }
  }

  lemma FailureIsPlain(c: Config, r: ExecutionRecord, b: CallbackBody, fault: Fault, s: StoreState, l: Ledger,
                       q: ExecutionRecord, s': StoreState, l': Ledger, result: CallbackResult)
    requires FailsIt(r, b) && MakePlan(r, b.nonce, b.payload).reason == DispatchFailed && q.id == r.id
    requires r.id.operationId in s.operations
    requires var e := SettleEffect(c, WritePlan(r, MakePlan(r, b.nonce, b.payload), b.nonce, 0.0), l, fault);
             && Timeless(q) == Timeless(e.record) && l' == e.ledger
             && s' == Commit(s, q).(audit := s.audit + [CallbackAudit(r, DispatchFailed)] + SettleAudit(q))
             && result == Handled(true, DispatchFailed, q.status, q.receipt)
    ensures CallbackDecides(c.hasProvider, r, b, fault, l, q, l') && CallbackTells(r, b, q, s, s', result)
  {
    var w := WritePlan(r, MakePlan(r, b.nonce, b.payload), b.nonce, 0.0);
    assert w == r.(status := FailedDispatched, callbackNonce := Some(b.nonce), times := w.times);
    FailureDecides(c, r, b, fault, l, w, q);
    FailureTells(r, b, q, s, s', result);
  }

  lemma FailureDecides(c: Config, r: ExecutionRecord, b: CallbackBody, fault: Fault, l: Ledger, w: ExecutionRecord,
                       q: ExecutionRecord)
    requires FailsIt(r, b) && q.id == r.id
    requires w == r.(status := FailedDispatched, callbackNonce := Some(b.nonce), times := w.times)
    requires Timeless(q) == Timeless(SettleEffect(c, w, l, fault).record)
    ensures CallbackDecides(c.hasProvider, r, b, fault, l, q, SettleEffect(c, w, l, fault).ledger)
    ensures q.status in {Compensated, CompensationFailed}
  {
    FailureIsSettled(c, w, l, fault);
    SameButTimes(SettleEffect(c, w, l, fault).record, q);
  }

  lemma FailureTells(r: ExecutionRecord, b: CallbackBody, q: ExecutionRecord, s: StoreState, s': StoreState,
                     result: CallbackResult)
    requires FailsIt(r, b) && q.id == r.id && r.id.operationId in s.operations
    requires q.status in {Compensated, CompensationFailed}
    requires s' == Commit(s, q).(audit := s.audit + [CallbackAudit(r, DispatchFailed)] + SettleAudit(q))
    requires result == Handled(true, DispatchFailed, q.status, q.receipt)
    ensures CallbackTells(r, b, q, s, s', result)
  {
  }

  lemma RewriteIsPlain(hasProvider: bool, r: ExecutionRecord, b: CallbackBody, fault: Fault, s: StoreState, l: Ledger,
                       q: ExecutionRecord, s': StoreState, result: CallbackResult)
    requires !FailsIt(r, b) && MakePlan(r, b.nonce, b.payload).reason != DispatchFailed
    requires r.id.operationId in s.operations && s.operations[r.id.operationId].operationId == r.id.operationId
    requires var plan := MakePlan(r, b.nonce, b.payload);
             && Timeless(q) == Timeless(WritePlan(r, plan, b.nonce, 0.0))
             && s' == PutOperation(PutExecution(s, q), WriteOperation(s.operations[r.id.operationId], plan))
                      .(audit := s.audit + if plan.nextStatus.Some? then [CallbackAudit(r, plan.reason)] else [])
             && result == Handled(plan.applied, plan.reason, plan.status, plan.receipt)
    ensures CallbackDecides(hasProvider, r, b, fault, l, q, l) && CallbackTells(r, b, q, s, s', result)
  {
    SameButTimes(WritePlan(r, MakePlan(r, b.nonce, b.payload), b.nonce, 0.0), q);
    RewriteDecides(hasProvider, r, b, fault, l, q);
    RewriteTells(r, b, s, q, s', result);
  }

  lemma RewriteDecides(hasProvider: bool, r: ExecutionRecord, b: CallbackBody, fault: Fault, l: Ledger,
                       q: ExecutionRecord)
    requires !FailsIt(r, b)
    requires q == WritePlan(r, MakePlan(r, b.nonce, b.payload), b.nonce, 0.0).(times := q.times)
    ensures CallbackDecides(hasProvider, r, b, fault, l, q, l)
  {
    PlanIsPlain(r, b);
  }

  lemma RewriteTells(r: ExecutionRecord, b: CallbackBody, s: StoreState, q: ExecutionRecord, s': StoreState,
                     result: CallbackResult)
    requires !FailsIt(r, b) && r.id.operationId in s.operations
    requires s.operations[r.id.operationId].operationId == r.id.operationId
    requires var plan := MakePlan(r, b.nonce, b.payload);
             && q == WritePlan(r, plan, b.nonce, 0.0).(times := q.times)
             && s' == PutOperation(PutExecution(s, q), WriteOperation(s.operations[r.id.operationId], plan))
                      .(audit := s.audit + if plan.nextStatus.Some? then [CallbackAudit(r, plan.reason)] else [])
             && result == Handled(plan.applied, plan.reason, plan.status, plan.receipt)
    ensures CallbackTells(r, b, q, s, s', result)
  {
    PlanIsPlain(r, b);
    PlanFields(r, b);
    PlanTells(r, b, MakePlan(r, b.nonce, b.payload), s, q, s', result);
  }

  /** What the plan of a callback that reports no failure holds. */
  lemma PlanFields(r: ExecutionRecord, b: CallbackBody)
    requires !FailsIt(r, b)
    ensures PlannedAs(r, b, MakePlan(r, b.nonce, b.payload))
  {
    PlanIsPlain(r, b);
  }

  predicate PlannedAs(r: ExecutionRecord, b: CallbackBody, plan: Plan) {
    && plan.nextStatus == (if ConfirmsIt(r, b) then Some(Confirmed) else if Disagrees(r, b) then Some(Mismatched)
                           else None)
    && plan.applied == ConfirmsIt(r, b) && (plan.receipt.Some? <==> ConfirmsIt(r, b))
    && plan.status == (if plan.nextStatus.Some? then plan.nextStatus.value else r.status)
    && plan.operationStatus == (if ConfirmsIt(r, b) then Some(OpExecuted) else if Disagrees(r, b) then Some(OpHandoff)
                                else None)
    && plan.operationResult == plan.nextStatus
  }

  lemma PlanTells(r: ExecutionRecord, b: CallbackBody, plan: Plan, s: StoreState, q: ExecutionRecord, s': StoreState,
                  result: CallbackResult)
    requires !FailsIt(r, b) && r.id.operationId in s.operations
    requires s.operations[r.id.operationId].operationId == r.id.operationId
    requires PlannedAs(r, b, plan) && ReasonedAs(r, b, plan.reason)
    requires q == WritePlan(r, plan, b.nonce, 0.0).(times := q.times)
    requires s' == PutOperation(PutExecution(s, q), WriteOperation(s.operations[r.id.operationId], plan))
                   .(audit := s.audit + if plan.nextStatus.Some? then [CallbackAudit(r, plan.reason)] else [])
    requires result == Handled(plan.applied, plan.reason, plan.status, plan.receipt)
    ensures CallbackTells(r, b, q, s, s', result)
  {
  }

  // ----- manual compensation -----

  /** Whether the table lets a record be closed by a reversal, answered or not. */
  predicate ClosesByHand(status: ExecutionStatus, answered: bool) {
    status in {FailedDispatched, Compensating} || (status == Reconciling && answered)
  }

  /** `compensate` by hand: nothing for a record that is not the tenant's or was closed by a reversal before; else the
      money is asked back first, whatever the record's status, and the record closed only if its status allows it. */
  ghost predicate CompensatedByHand(hasProvider: bool, tenantId: string, id: string, fault: Fault, s: StoreState,
                                    l: Ledger, s': StoreState, l': Ledger, result: Result<CompensateReply>) {
    if id !in s.executions || s.executions[id].id.tenantId != tenantId then
      s' == s && l' == l && result == Raised(Error.NotFound)
    else
      var r, answered := s.executions[id], !hasProvider || fault == Healthy;
      if r.status == Compensated || r.status == CompensationFailed then
        s' == s && l' == l && result == Ok(Replayed(r.status == Compensated))
      else
        && AskedBack(hasProvider, r, fault, l, l') && OtherRowsKept(r, l, l')
        && if !ClosesByHand(r.status, answered) then s' == s && result == Raised(IllegalTransition)
           else
             && id in s'.executions && ClosedByReversal(hasProvider, r, fault, s'.executions[id], l')
             && s'.operations == s.operations && result.Ok? && result.value.Attempted?
             && (result.value.receipt.Some? <==> answered)
             && Logged(r, s, s', [if answered then AuditCompensated else AuditCompensationFailed])
  }

  lemma CompensateIsPlain(c: Config, tenantId: string, id: string, fault: Fault, s: StoreState, l: Ledger,
                          s': StoreState, l': Ledger, result: Result<CompensateReply>)
    requires forall id :: id in s.executions ==> s.executions[id].id.executionId == id
    requires CompensateSpec(c, tenantId, id, fault, s, l, s', l', result)
    ensures CompensatedByHand(c.hasProvider, tenantId, id, fault, s, l, s', l', result)
  {
    if id in s.executions && s.executions[id].id.tenantId == tenantId
       && s.executions[id].status !in {Compensated, CompensationFailed} {
      var r := s.executions[id];
      ReversalIsPlain(c, r, l, fault);
      var (l1, receipt) := Reverse(c, r, l, fault);
      if ClosesByHand(r.status, !c.hasProvider || fault == Healthy) {
        SameButTimes(Reversed(r, receipt), s'.executions[id]);
        ClosedTimeless(c.hasProvider, r, fault, Reversed(r, receipt), s'.executions[id], l1);
      }
    }
  }

  lemma ReversalIsPlain(c: Config, r: ExecutionRecord, l: Ledger, fault: Fault)
    ensures var (l', receipt) := Reverse(c, r, l, fault);
            && AskedBack(c.hasProvider, r, fault, l, l') && OtherRowsKept(r, l, l')
            && ClosedByReversal(c.hasProvider, r, fault, Reversed(r, receipt), l')
            && (receipt.Some? <==> !c.hasProvider || fault == Healthy)
            && (Reversed(r, receipt).status == Compensated <==> !c.hasProvider || fault == Healthy)
            && (CanTransition(r.status, Reversed(r, receipt).status) && r.status !in {Compensated, CompensationFailed}
                <==> ClosesByHand(r.status, !c.hasProvider || fault == Healthy))
  {
  }

  lemma ClosedTimeless(hasProvider: bool, r: ExecutionRecord, fault: Fault, e: ExecutionRecord, q: ExecutionRecord,
                       l': Ledger)
    requires ClosedByReversal(hasProvider, r, fault, e, l') && q == e.(times := q.times)
    ensures ClosedByReversal(hasProvider, r, fault, q, l')
  {
  }
}
