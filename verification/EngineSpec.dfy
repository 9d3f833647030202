/** What each engine call does to store, ledger and caller, and the proof that completed calls keep them in order
    (src/execution/engine.py). */
module EngineSpec {
  import opened Wrappers
  import opened ExecutionTypes
  import opened CallbackPlan
  import opened MemoryStore
  import opened Gateway
  import opened ExecutionEffects

  datatype ExecutionOutcome = ExecutionOutcome(
    executionId: string, operationId: string, status: ExecutionStatus, mode: ExecutionMode,
    operationStatus: OperationStatus, receipt: Option<Receipt>, externalTxnId: Option<string>, humanHandoff: bool)

  function ReplayOutcome(r: ExecutionRecord, op: Operation): ExecutionOutcome {
    ExecutionOutcome(r.id.executionId, op.operationId, r.status, r.id.mode, op.status, r.receipt, r.externalTxnId,
                     r.status in {HumanHandoff, Mismatched})
  }

  /** What a first `execute` reports about the record it has just settled. */
  function FirstOutcome(r: ExecutionRecord): ExecutionOutcome {
    ExecutionOutcome(r.id.executionId, r.id.operationId, r.status, r.id.mode, OperationStatusFor(r.status),
                     match r.status
                     case Compensated => r.compensationResult
                     case Confirmed => r.receipt
                     case Submitted => r.receipt
                     case _ => None,
                     if r.status in {Confirmed, Submitted, FailedUncertain} then r.externalTxnId else None,
                     r.status == CompensationFailed)
  }

  /** The amount a refund moves: what the order paid, which must be positive. */
  function ResolveAmount(action: PendingAction, orderTotal: Option<real>): Result<Option<real>> {
    if action == Refund then
      if orderTotal.None? || orderTotal.value <= 0.0 then Raised(AmountInvalid) else Ok(orderTotal)
    else Ok(None)
  }

  datatype CallbackBody = CallbackBody(tenantId: string, executionId: string, nonce: string, payload: Payload)

  datatype CallbackResult =
    | SignatureInvalid
    | BadPayload
    | MissingIdentity
    | MissingNonce
    | UnknownExecution
    | Handled(applied: bool, reason: Reason, status: ExecutionStatus, receipt: Option<Receipt>)

  function AnchorOfOperation(op: Operation): (string, string) {
    (op.tenantId, op.operationId)
  }

  /** The stored operation is the one the caller was handed, whatever its status has become. */
  predicate SameOperation(stored: Operation, op: Operation) {
    stored == op.(status := stored.status, result := stored.result)
  }

  /** The whole effect of one `execute` on store, ledger and caller. */
  ghost predicate ExecuteSpec(c: Config, op: Operation, amount: Result<Option<real>>, m: ExecutionMode, freshId: string,
                              env: SubmitEnv, s: StoreState, l: Ledger, s': StoreState, l': Ledger,
                              result: Result<ExecutionOutcome>)
    requires ValidStore(s) && op.operationId in s.operations
  {
    if AnchorOfOperation(op) in s.executionByOperation then
      && s' == s && l' == l
      && result == Ok(ReplayOutcome(s.executions[s.executionByOperation[AnchorOfOperation(op)]],
                                    s.operations[op.operationId]))
    else if amount.Raised? then
      s' == s && l' == l && result == Raised(amount.error)
    else
      FirstExecution(c, NewRecord(op, m, amount.value, 0.0, freshId), env, s, l, s', l', result)
  }

  ghost predicate FirstExecution(c: Config, r0: ExecutionRecord, env: SubmitEnv, s: StoreState, l: Ledger,
                                 s': StoreState, l': Ledger, result: Result<ExecutionOutcome>)
    requires r0.id.operationId in s.operations
  {
    r0.id.executionId in s'.executions
    && var r := s'.executions[r0.id.executionId];
    if r0.id.mode == Live && !c.hasProvider then
      && Timeless(r) == Timeless(r0) && l' == l && result == Raised(ProviderMissing)
      && s' == InsertExecution(s, r).(audit := s.audit + [Row(r, AuditCreate)])
    else
      var e := ExecuteEffect(c, r0, l, env);
      && Timeless(r) == Timeless(e.record) && r.id == r0.id && l' == e.ledger && result == Ok(FirstOutcome(r))
      && s' == Commit(InsertExecution(s, r), r).(audit := s.audit + ExecuteAudit(r))
  }

  /** The whole effect of one callback on store, ledger and caller. */
  ghost predicate CallbackSpec(c: Config, signatureValid: bool, body: Option<CallbackBody>, fault: Fault,
                               s: StoreState, l: Ledger, s': StoreState, l': Ledger, result: CallbackResult)
    requires Linked(s)
  {
    if !signatureValid then s' == s && l' == l && result == SignatureInvalid
    else if body.None? then s' == s && l' == l && result == BadPayload
    else if body.value.tenantId == "" || body.value.executionId == "" then
      s' == s && l' == l && result == MissingIdentity
    else if body.value.nonce == "" then s' == s && l' == l && result == MissingNonce
    else if body.value.executionId !in s.executions
         || s.executions[body.value.executionId].id.tenantId != body.value.tenantId then
      s' == s && l' == l && result == UnknownExecution
    else LocatedCallback(c, body.value, fault, s, l, s', l', result)
  }

  ghost predicate LocatedCallback(c: Config, b: CallbackBody, fault: Fault,
                                  s: StoreState, l: Ledger, s': StoreState, l': Ledger, result: CallbackResult)
    requires b.executionId in s.executions && s.executions[b.executionId].id.operationId in s.operations
  {
    var r := s.executions[b.executionId];
    var plan := MakePlan(r, b.nonce, b.payload);
    var q := WritePlan(r, plan, b.nonce, 0.0);
    b.executionId in s'.executions
    && var r' := s'.executions[b.executionId];
    if plan.reason == DispatchFailed then
      var e := SettleEffect(c, q, l, fault);
      && Timeless(r') == Timeless(e.record) && r'.id == r.id && l' == e.ledger
      && s' == Commit(s, r').(audit := s.audit + [CallbackAudit(r, DispatchFailed)] + SettleAudit(r'))
      && result == Handled(true, DispatchFailed, r'.status, r'.receipt)
    else
      && Timeless(r') == Timeless(q) && l' == l
      && s' == PutOperation(PutExecution(s, r'), WriteOperation(s.operations[r.id.operationId], plan))
               .(audit := s.audit + if plan.nextStatus.Some? then [CallbackAudit(r, plan.reason)] else [])
      && result == Handled(plan.applied, plan.reason, plan.status, plan.receipt)
  }

  lemma CommitAfterCallback(s: StoreState, b: CallbackBody, now: real, r: ExecutionRecord)
    requires b.executionId in s.executions && s.executions[b.executionId].id == r.id
    requires r.id.executionId == b.executionId
    requires r.id.tenantId == b.tenantId && r.id.operationId in s.operations
    requires s.operations[r.id.operationId].operationId == r.id.operationId
    ensures var s1 := CallbackState(s, b.tenantId, b.executionId, b.nonce, b.payload, now);
            Commit(s1, r) == Commit(s, r).(audit := s1.audit)
  {
    var s1 := CallbackState(s, b.tenantId, b.executionId, b.nonce, b.payload, now);
    assert Commit(s1, r).executions == s.executions[r.id.executionId := r];
    assert Commit(s1, r).operations == Commit(s, r).operations;
  }

  lemma CallbackIsRewrite(s: StoreState, b: CallbackBody, now: real)
    requires b.executionId in s.executions && s.executions[b.executionId].id.executionId == b.executionId
    requires s.executions[b.executionId].id.tenantId == b.tenantId
    requires s.executions[b.executionId].id.operationId in s.operations
    requires var op := s.operations[s.executions[b.executionId].id.operationId];
             op.operationId == s.executions[b.executionId].id.operationId && op.tenantId == b.tenantId
    ensures var r := s.executions[b.executionId];
            var plan := MakePlan(r, b.nonce, b.payload);
            var r' := Touch(WritePlan(r, plan, b.nonce, now), now);
            Timeless(r') == Timeless(WritePlan(r, plan, b.nonce, 0.0))
            && CallbackState(s, b.tenantId, b.executionId, b.nonce, b.payload, now)
               == PutOperation(PutExecution(s, r'), WriteOperation(s.operations[r.id.operationId], plan))
                  .(audit := s.audit + if plan.nextStatus.Some? then [CallbackAudit(r, plan.reason)] else [])
  {
  }

  lemma CallbackKeepsOrder(c: Config, signatureValid: bool, body: Option<CallbackBody>, fault: Fault,
                           s: StoreState, l: Ledger, s': StoreState, l': Ledger, result: CallbackResult)
    requires Linked(s) && LedgerValid(l)
    requires CallbackSpec(c, signatureValid, body, fault, s, l, s', l', result)
    ensures Linked(s') && LedgerValid(l')
    ensures Consistent(c.hasProvider, s, l) ==> Consistent(c.hasProvider, s', l')
  {
    if s' != s || l' != l {
      LocatedKeepsOrder(c, body.value, fault, s, l, s', l', result);
    }
  }

  /** A callback that does not report a failure: the record, its operation and an audit row. */
  lemma RewriteKeepsOrder(c: Config, b: CallbackBody, fault: Fault, s: StoreState, l: Ledger, r': ExecutionRecord,
                          audit: seq<AuditRow>)
    requires Linked(s) && b.executionId in s.executions
    requires var r := s.executions[b.executionId];
             var plan := MakePlan(r, b.nonce, b.payload);
             && plan.reason != DispatchFailed && r'.id == r.id
             && Timeless(r') == Timeless(WritePlan(r, plan, b.nonce, 0.0))
    ensures var r := s.executions[b.executionId];
            var op := WriteOperation(s.operations[r.id.operationId], MakePlan(r, b.nonce, b.payload));
            var s' := PutOperation(PutExecution(s, r'), op).(audit := audit);
            Linked(s') && (Consistent(c.hasProvider, s, l) ==> Consistent(c.hasProvider, s', l))
  {
    var r := s.executions[b.executionId];
    var plan := MakePlan(r, b.nonce, b.payload);
    var op := WriteOperation(s.operations[r.id.operationId], plan);
    RewriteKeepsLinked(s, r', op);
    if Consistent(c.hasProvider, s, l) {
      RestsAt(c.hasProvider, s, l, b.executionId);
      CallbackComesToRest(c, r, s.operations[r.id.operationId], l, b.nonce, b.payload, 0.0, fault);
      AtRestIgnoresTimes(c.hasProvider, r', WritePlan(r, plan, b.nonce, 0.0), op, l);
      RewriteKeepsConsistent(c.hasProvider, s, l, r', op);
    }
    AuditIsFree(c.hasProvider, PutOperation(PutExecution(s, r'), op), l, audit);
  }

  lemma LocatedKeepsOrder(c: Config, b: CallbackBody, fault: Fault,
                          s: StoreState, l: Ledger, s': StoreState, l': Ledger, result: CallbackResult)
    requires Linked(s) && LedgerValid(l) && b.executionId in s.executions
    requires LocatedCallback(c, b, fault, s, l, s', l', result)
    ensures Linked(s') && LedgerValid(l')
    ensures Consistent(c.hasProvider, s, l) ==> Consistent(c.hasProvider, s', l')
  {
    var r, r' := s.executions[b.executionId], s'.executions[b.executionId];
    var plan := MakePlan(r, b.nonce, b.payload);
    if plan.reason == DispatchFailed {
      FailureKeepsOrder(c, b, fault, s, l, r');
      AuditIsFree(c.hasProvider, Commit(s, r'), l', s'.audit);
    } else {
      RewriteKeepsOrder(c, b, fault, s, l, r', s'.audit);
    }
  }

  lemma FailureKeepsOrder(c: Config, b: CallbackBody, fault: Fault, s: StoreState, l: Ledger, r': ExecutionRecord)
    requires Linked(s) && LedgerValid(l) && b.executionId in s.executions
    requires MakePlan(s.executions[b.executionId], b.nonce, b.payload).reason == DispatchFailed
    requires var r := s.executions[b.executionId];
             var e := SettleEffect(c, WritePlan(r, MakePlan(r, b.nonce, b.payload), b.nonce, 0.0), l, fault);
             r'.id == r.id && Timeless(r') == Timeless(e.record)
    ensures var r := s.executions[b.executionId];
            var e := SettleEffect(c, WritePlan(r, MakePlan(r, b.nonce, b.payload), b.nonce, 0.0), l, fault);
            Linked(Commit(s, r')) && LedgerValid(e.ledger)
            && (Consistent(c.hasProvider, s, l) ==> Consistent(c.hasProvider, Commit(s, r'), e.ledger))
  {
    var r := s.executions[b.executionId];
    FailureEffect(c, r, s.operations[r.id.operationId], b, l, fault, r');
    CommitKeepsLinked(s, r');
    if Consistent(c.hasProvider, s, l) {
      RestsAt(c.hasProvider, s, l, b.executionId);
      var e := SettleEffect(c, WritePlan(r, MakePlan(r, b.nonce, b.payload), b.nonce, 0.0), l, fault);
      SettledConsistent(c.hasProvider, s, l, r', e.ledger);
    }
  }

  lemma FailureEffect(c: Config, r: ExecutionRecord, op: Operation, b: CallbackBody, l: Ledger, fault: Fault,
                      r': ExecutionRecord)
    requires MakePlan(r, b.nonce, b.payload).reason == DispatchFailed
    requires var e := SettleEffect(c, WritePlan(r, MakePlan(r, b.nonce, b.payload), b.nonce, 0.0), l, fault);
             r'.id == r.id && Timeless(r') == Timeless(e.record)
    ensures var e := SettleEffect(c, WritePlan(r, MakePlan(r, b.nonce, b.payload), b.nonce, 0.0), l, fault);
            LedgerGrowsFor(r', l, e.ledger) && e.ledger.txns == l.txns
            && (AtRest(c.hasProvider, r, op, l) ==> AtRest(c.hasProvider, r', Mark(op, r'.status), e.ledger))
  {
    var q := WritePlan(r, MakePlan(r, b.nonce, b.payload), b.nonce, 0.0);
    PlannedMoveIsLegal(r, b.nonce, b.payload);
    SettleCloses(c, q, l, fault);
    if AtRest(c.hasProvider, r, op, l) {
      CallbackComesToRest(c, r, op, l, b.nonce, b.payload, 0.0, fault);
      var e := SettleEffect(c, q, l, fault);
      AtRestIgnoresTimes(c.hasProvider, r', e.record, Mark(op, r'.status), e.ledger);
    }
  }

  /** A record settled at rest, with at most its own reversal added, keeps everything in order. */
  lemma SettledConsistent(hasProvider: bool, s: StoreState, l: Ledger, r: ExecutionRecord, l': Ledger)
    requires Consistent(hasProvider, s, l) && LedgerGrowsFor(r, l, l') && l'.txns == l.txns
    requires r.id.executionId in s.executions && s.executions[r.id.executionId].id == r.id
    requires AtRest(hasProvider, r, Mark(s.operations[r.id.operationId], r.status), l')
    ensures Consistent(hasProvider, Commit(s, r), l')
  {
    SettledRows(s, l, r, l');
    CommitKeepsConsistent(hasProvider, s, l, r, l');
  }

  lemma SettledRows(s: StoreState, l: Ledger, r: ExecutionRecord, l': Ledger)
    requires RowsOwned(s, l) && LedgerGrowsFor(r, l, l') && l'.txns == l.txns
    requires r.id.executionId in s.executions && s.executions[r.id.executionId].id == r.id
    ensures RowsOwned(s, l')
  {
    RowsStayOwned(s, l, s, l');
  }

  lemma RewriteKeepsLinked(s: StoreState, r: ExecutionRecord, op: Operation)
    requires Linked(s) && r.id.executionId in s.executions && s.executions[r.id.executionId].id == r.id
    requires SameBusiness(r, op) && op.threadId == s.operations[r.id.operationId].threadId
    ensures Linked(PutOperation(PutExecution(s, r), op))
  {
    RewriteKeepsValid(s, r, op);
  }

  lemma RewriteKeepsConsistent(hasProvider: bool, s: StoreState, l: Ledger, r: ExecutionRecord, op: Operation)
    requires Consistent(hasProvider, s, l) && r.id.executionId in s.executions
    requires s.executions[r.id.executionId].id == r.id
    requires SameBusiness(r, op) && op.threadId == s.operations[r.id.operationId].threadId
    requires AtRest(hasProvider, r, op, l)
    ensures Consistent(hasProvider, PutOperation(PutExecution(s, r), op), l)
  {
    RewriteKeepsLinked(s, r, op);
    RewriteKeepsRows(s, l, r, op);
    var s' := PutOperation(PutExecution(s, r), op);
    forall id: string
      ensures Rests(hasProvider, s', l, id)
    {
      assert Rests(hasProvider, s, l, id);
      RewriteKeepsRest(hasProvider, s, l, r, op, id);
    }
  }

  lemma RewriteKeepsRest(hasProvider: bool, s: StoreState, l: Ledger, r: ExecutionRecord, op: Operation, id: string)
    requires Linked(s) && Rests(hasProvider, s, l, id)
    requires r.id.executionId in s.executions && s.executions[r.id.executionId].id == r.id
    requires op.operationId == r.id.operationId && AtRest(hasProvider, r, op, l)
    ensures Rests(hasProvider, PutOperation(PutExecution(s, r), op), l, id)
  {
    if id in s.executions {
      KeysIdentify(s, id, r.id.executionId);
    }
  }

  lemma RewriteKeepsRows(s: StoreState, l: Ledger, r: ExecutionRecord, op: Operation)
    requires RowsOwned(s, l) && r.id.executionId in s.executions && s.executions[r.id.executionId].id == r.id
    ensures RowsOwned(PutOperation(PutExecution(s, r), op), l)
  {
    RowsStayOwned(s, l, PutOperation(PutExecution(s, r), op), l);
  }

  /** A record created, then settled as the effect says, is a first execution. */
  lemma FirstFromSettled(c: Config, r0: ExecutionRecord, q: ExecutionRecord, r: ExecutionRecord, env: SubmitEnv,
                         s: StoreState, l: Ledger, s': StoreState, l': Ledger, result: Result<ExecutionOutcome>)
    requires Timeless(q) == Timeless(r0) && r.id == r0.id && r0.id.operationId in s.operations
    requires r0.id.executionId in s'.executions && s'.executions[r0.id.executionId] == r
    requires var created := InsertExecution(s, q).(audit := s.audit + [Row(q, AuditCreate)]);
             if r0.id.mode == Live && !c.hasProvider then
               s' == created && l' == l && result == Raised(ProviderMissing)
             else
               && Timeless(r) == Timeless(ExecuteEffect(c, q, l, env).record)
               && l' == ExecuteEffect(c, q, l, env).ledger
               && s' == Commit(created, r).(audit := created.audit + ExecuteAudit(r)[1..])
               && result == Ok(FirstOutcome(r))
    ensures FirstExecution(c, r0, env, s, l, s', l', result)
  {
    ExecuteIgnoresTimes(c, q, r0, l, env);
    InsertThenCommit(s, q, r);
  }

  /** Effects do not depend on the times already set. */
  lemma ExecuteIgnoresTimes(c: Config, r: ExecutionRecord, q: ExecutionRecord, l: Ledger, env: SubmitEnv)
    requires Timeless(r) == Timeless(q)
    ensures var e, f := ExecuteEffect(c, r, l, env), ExecuteEffect(c, q, l, env);
            Timeless(e.record) == Timeless(f.record) && e.ledger == f.ledger && e.record.id == r.id
  {
    if r.id.mode == Live {
      var l' := if env.submitFault == RequestLost then l
                else InsertTxn(l, TxnKey(r), Txn(env.freshTxnId, AmountOf(r), env.status));
      AnswerIgnoresTimes(c, r.(attempts := 1), q.(attempts := 1), l',
                         if env.submitFault == Healthy then Some(l'.txns[TxnKey(r)]) else None, env.compensateFault);
    }
  }

  /** A claimed record answered by the provider came out as its submission says. */
  lemma SubmittedAsClaimed(c: Config, r: ExecutionRecord, own: ExecutionRecord, l: Ledger, env: SubmitEnv)
    requires Timeless(own) == Timeless(r.(attempts := 1))
    ensures var l' := if env.submitFault == RequestLost then l
                      else InsertTxn(l, TxnKey(r), Txn(env.freshTxnId, AmountOf(r), env.status));
            var reply := if env.submitFault == Healthy then Some(l'.txns[TxnKey(r)]) else None;
            var e, f := SubmitEffect(c, r, l, env), AfterSubmit(c, own, l', reply, env.compensateFault);
            Timeless(f.record) == Timeless(e.record) && f.ledger == e.ledger
  {
    var l' := if env.submitFault == RequestLost then l
              else InsertTxn(l, TxnKey(r), Txn(env.freshTxnId, AmountOf(r), env.status));
    AnswerIgnoresTimes(c, own, r.(attempts := 1), l',
                       if env.submitFault == Healthy then Some(l'.txns[TxnKey(r)]) else None, env.compensateFault);
  }

  lemma AnswerIgnoresTimes(c: Config, r: ExecutionRecord, q: ExecutionRecord, l: Ledger, reply: Option<Txn>,
                           fault: Fault)
    requires Timeless(r) == Timeless(q)
    ensures var e, f := AfterSubmit(c, r, l, reply, fault), AfterSubmit(c, q, l, reply, fault);
            Timeless(e.record) == Timeless(f.record) && e.ledger == f.ledger && e.record.id == r.id
  {
    if reply.Some? {
      var x := if reply.value.externalTxnId != "" then reply.value.externalTxnId
               else c.deriveTxnId(r.id.idempotencyKey);
      SettleIgnoresTimes(c, r.(status := FailedDispatched, externalTxnId := Some(x)),
                         q.(status := FailedDispatched, externalTxnId := Some(x)), l, fault);
    }
  }

  lemma SettleIgnoresTimes(c: Config, r: ExecutionRecord, q: ExecutionRecord, l: Ledger, fault: Fault)
    requires Timeless(r) == Timeless(q)
    ensures var e, f := SettleEffect(c, r, l, fault), SettleEffect(c, q, l, fault);
            Timeless(e.record) == Timeless(f.record) && e.ledger == f.ledger && e.record.id == r.id
  {
  }

  /** A reported failure, settled after the atomic step, told against the state before the callback. */
  lemma ReportedIsLocated(c: Config, b: CallbackBody, fault: Fault, s: StoreState, l: Ledger, now: real,
                          r: ExecutionRecord, s': StoreState, l': Ledger)
    requires b.executionId in s.executions && s.executions[b.executionId].id.executionId == b.executionId
    requires s.executions[b.executionId].id.tenantId == b.tenantId
    requires s.executions[b.executionId].id.operationId in s.operations
    requires s.operations[s.executions[b.executionId].id.operationId].operationId
             == s.executions[b.executionId].id.operationId
    requires MakePlan(s.executions[b.executionId], b.nonce, b.payload).reason == DispatchFailed
    requires r.id == s.executions[b.executionId].id
    requires var s1 := CallbackState(s, b.tenantId, b.executionId, b.nonce, b.payload, now);
             && b.executionId in s1.executions && s1.executions[b.executionId].id == r.id
             && r.id.operationId in s1.operations
             && var e := SettleEffect(c, s1.executions[b.executionId], l, fault);
             && Timeless(r) == Timeless(e.record) && l' == e.ledger
             && s' == Commit(s1, r).(audit := s1.audit + SettleAudit(r))
    ensures LocatedCallback(c, b, fault, s, l, s', l', Handled(true, DispatchFailed, r.status, r.receipt))
  {
    var before := s.executions[b.executionId];
    var s1 := CallbackState(s, b.tenantId, b.executionId, b.nonce, b.payload, now);
    PlannedMoveIsLegal(before, b.nonce, b.payload);
    SettleIgnoresTimes(c, s1.executions[b.executionId],
                       WritePlan(before, MakePlan(before, b.nonce, b.payload), b.nonce, 0.0), l, fault);
    CommitAfterCallback(s, b, now, r);
  }

  /** A replay names the same execution, status and operation status as the first answer; it repeats that answer
      entirely exactly when the execution was submitted, confirmed or left uncertain. After a compensation it loses
      the reversal receipt, and after a failed one the handoff flag. */
  lemma ReplayRepeatsFirstAnswer(c: Config, r0: ExecutionRecord, op: Operation, l: Ledger, env: SubmitEnv)
    requires r0.status == PendingSubmit && r0.attempts == 0 && r0.externalTxnId.None? && r0.receipt.None?
    requires r0.compensationResult.None? && (r0.id.mode == Live ==> c.hasProvider)
    requires op.operationId == r0.id.operationId
    ensures var r := ExecuteEffect(c, r0, l, env).record;
            var first, again := FirstOutcome(r), ReplayOutcome(r, Mark(op, r.status));
            && again == first.(receipt := again.receipt, externalTxnId := again.externalTxnId,
                               humanHandoff := again.humanHandoff)
            && (again == first <==> r.status in {Submitted, Confirmed, FailedUncertain})
  {
    if r0.id.mode == Live {
      var l' := if env.submitFault == RequestLost then l
                else InsertTxn(l, TxnKey(r0), Txn(env.freshTxnId, AmountOf(r0), env.status));
      AnswerRepeats(c, r0.(attempts := 1), op, l',
                    if env.submitFault == Healthy then Some(l'.txns[TxnKey(r0)]) else None, env.compensateFault);
    }
  }

  lemma AnswerRepeats(c: Config, r: ExecutionRecord, op: Operation, l: Ledger, reply: Option<Txn>, fault: Fault)
    requires r.status == PendingSubmit && r.externalTxnId.None? && r.receipt.None? && op.operationId == r.id.operationId
    ensures var e := AfterSubmit(c, r, l, reply, fault).record;
            var first, again := FirstOutcome(e), ReplayOutcome(e, Mark(op, e.status));
            && again == first.(receipt := again.receipt, externalTxnId := again.externalTxnId,
                               humanHandoff := again.humanHandoff)
            && (again == first <==> e.status in {Submitted, Confirmed, FailedUncertain})
  {
  }

  lemma ExecuteKeepsOrder(c: Config, op: Operation, amount: Result<Option<real>>, m: ExecutionMode, freshId: string,
                          env: SubmitEnv, s: StoreState, l: Ledger, s': StoreState, l': Ledger,
                          result: Result<ExecutionOutcome>)
    requires Linked(s) && LedgerValid(l) && freshId !in s.executions && FreshTxnId(l, env.freshTxnId)
    requires op.operationId in s.operations && SameOperation(s.operations[op.operationId], op)
    requires ExecuteSpec(c, op, amount, m, freshId, env, s, l, s', l', result)
    ensures Linked(s') && LedgerValid(l')
    ensures Consistent(c.hasProvider, s, l) ==> Consistent(c.hasProvider, s', l')
  {
    if AnchorOfOperation(op) !in s.executionByOperation && amount.Ok? {
      FirstExecutionKeepsOrder(c, NewRecord(op, m, amount.value, 0.0, freshId), env, s, l, s', l', result);
    }
  }

  lemma FirstExecutionKeepsOrder(c: Config, r0: ExecutionRecord, env: SubmitEnv, s: StoreState, l: Ledger,
                                 s': StoreState, l': Ledger, result: Result<ExecutionOutcome>)
    requires Linked(s) && LedgerValid(l) && r0.id.executionId !in s.executions && FreshTxnId(l, env.freshTxnId)
    requires r0.id.operationId in s.operations && SameBusiness(r0, s.operations[r0.id.operationId])
    requires AnchorOf(r0) !in s.executionByOperation
    requires r0.status == PendingSubmit && r0.attempts == 0 && r0.externalTxnId.None?
    requires FirstExecution(c, r0, env, s, l, s', l', result)
    ensures Linked(s') && LedgerValid(l')
    ensures Consistent(c.hasProvider, s, l) ==> Consistent(c.hasProvider, s', l')
  {
    var r := s'.executions[r0.id.executionId];
    if r0.id.mode == Shadow || c.hasProvider {
      SettledKeepsOrder(c, r0, r, env, s, l, s'.audit);
    } else {
      PendingKeepsOrder(s, l, r, s'.audit);
    }
  }

  lemma SettledKeepsOrder(c: Config, r0: ExecutionRecord, r: ExecutionRecord, env: SubmitEnv, s: StoreState, l: Ledger,
                          audit: seq<AuditRow>)
    requires Linked(s) && LedgerValid(l) && r.id.executionId !in s.executions && FreshTxnId(l, env.freshTxnId)
    requires r.id.operationId in s.operations && SameBusiness(r, s.operations[r.id.operationId])
    requires AnchorOf(r) !in s.executionByOperation && (r0.id.mode == Live ==> c.hasProvider)
    requires r0.status == PendingSubmit && r0.attempts == 0 && r0.externalTxnId.None? && r.id == r0.id
    requires Timeless(r) == Timeless(ExecuteEffect(c, r0, l, env).record)
    ensures var s', l' := Commit(InsertExecution(s, r), r).(audit := audit), ExecuteEffect(c, r0, l, env).ledger;
            Linked(s') && LedgerValid(l') && (Consistent(c.hasProvider, s, l) ==> Consistent(c.hasProvider, s', l'))
  {
    ExecuteKeepsLedgerValid(c, r0, l, env);
    InsertCommitKeepsLinked(s, r);
    AuditIsFree(c.hasProvider, Commit(InsertExecution(s, r), r), ExecuteEffect(c, r0, l, env).ledger, audit);
    if Consistent(c.hasProvider, s, l) {
      FirstComesToRest(c, r0, r, env, s, l);
    }
  }

  lemma PendingKeepsOrder(s: StoreState, l: Ledger, r: ExecutionRecord, audit: seq<AuditRow>)
    requires Linked(s) && r.id.executionId !in s.executions && AnchorOf(r) !in s.executionByOperation
    requires r.id.operationId in s.operations && SameBusiness(r, s.operations[r.id.operationId])
    requires r.status == PendingSubmit && r.attempts == 0 && r.externalTxnId.None? && r.id.mode == Live
    ensures var s' := InsertExecution(s, r).(audit := audit);
            Linked(s') && (Consistent(false, s, l) ==> Consistent(false, s', l))
  {
    InsertKeepsLinked(s, r);
    AuditIsFree(false, InsertExecution(s, r), l, audit);
    if Consistent(false, s, l) {
      PendingIsAtRest(s, l, r);
    }
  }

  lemma InsertKeepsLinked(s: StoreState, r: ExecutionRecord)
    requires Linked(s) && r.id.executionId !in s.executions && AnchorOf(r) !in s.executionByOperation
    requires r.id.operationId in s.operations && SameBusiness(r, s.operations[r.id.operationId])
    ensures Linked(InsertExecution(s, r))
  {
    InsertKeepsValid(s, r);
  }

  lemma InsertCommitKeepsLinked(s: StoreState, r: ExecutionRecord)
    requires Linked(s) && r.id.executionId !in s.executions && AnchorOf(r) !in s.executionByOperation
    requires r.id.operationId in s.operations && SameBusiness(r, s.operations[r.id.operationId])
    ensures Linked(InsertExecution(s, r)) && Linked(Commit(InsertExecution(s, r), r))
  {
    InsertKeepsLinked(s, r);
    CommitKeepsLinked(InsertExecution(s, r), r);
  }

  /** Live without a provider: the record stays pending, unclaimed and absent from the ledger. */
  lemma PendingIsAtRest(s: StoreState, l: Ledger, r: ExecutionRecord)
    requires Consistent(false, s, l) && r.id.executionId !in s.executions && AnchorOf(r) !in s.executionByOperation
    requires r.id.operationId in s.operations && SameBusiness(r, s.operations[r.id.operationId])
    requires r.status == PendingSubmit && r.attempts == 0 && r.externalTxnId.None? && r.id.mode == Live
    ensures Consistent(false, InsertExecution(s, r), l)
  {
    InsertKeepsLinked(s, r);
    NothingBeforeExecution(false, s, l, s.operations[r.id.operationId], r.id.executionId);
    InsertKeepsRows(s, r, l, l);
    InsertKeepsRest(false, s, r, l);
  }

  lemma InsertKeepsRest(hasProvider: bool, s: StoreState, r: ExecutionRecord, l: Ledger)
    requires forall id :: Rests(hasProvider, s, l, id)
    requires r.id.operationId in s.operations && r.id.executionId !in s.executions
    requires AtRest(hasProvider, r, s.operations[r.id.operationId], l)
    ensures forall id :: Rests(hasProvider, InsertExecution(s, r), l, id)
  {
    var s' := InsertExecution(s, r);
    forall id: string
      ensures Rests(hasProvider, s', l, id)
    {
      assert Rests(hasProvider, s, l, id);
    }
  }

  lemma FirstComesToRest(c: Config, r0: ExecutionRecord, r: ExecutionRecord, env: SubmitEnv, s: StoreState, l: Ledger)
    requires Consistent(c.hasProvider, s, l) && FreshTxnId(l, env.freshTxnId)
    requires r.id.executionId !in s.executions && AnchorOf(r) !in s.executionByOperation
    requires r.id.operationId in s.operations && SameBusiness(r, s.operations[r.id.operationId])
    requires r0.status == PendingSubmit && r0.attempts == 0 && r0.externalTxnId.None? && r.id == r0.id
    requires r0.id.mode == Live ==> c.hasProvider
    requires Timeless(r) == Timeless(ExecuteEffect(c, r0, l, env).record)
    ensures Consistent(c.hasProvider, Commit(InsertExecution(s, r), r), ExecuteEffect(c, r0, l, env).ledger)
  {
    var op, l' := s.operations[r.id.operationId], ExecuteEffect(c, r0, l, env).ledger;
    NothingBeforeExecution(c.hasProvider, s, l, op, r0.id.executionId);
    ExecuteComesToRest(c, r0, op, l, env);
    AtRestIgnoresTimes(c.hasProvider, r, ExecuteEffect(c, r0, l, env).record, Mark(op, r.status), l');
    InsertCommitKeepsLinked(s, r);
    InsertKeepsRows(s, r, l, l');
    InsertedCommit(c.hasProvider, s, l, r, l');
  }

  lemma InsertedCommit(hasProvider: bool, s: StoreState, l: Ledger, r: ExecutionRecord, l': Ledger)
    requires Consistent(hasProvider, s, l) && r.id.executionId !in s.executions
    requires Linked(InsertExecution(s, r)) && RowsOwned(InsertExecution(s, r), l') && LedgerValid(l')
    requires LedgerGrowsFor(r, l, l') && r.id.operationId in s.operations
    requires AtRest(hasProvider, r, Mark(s.operations[r.id.operationId], r.status), l')
    ensures Consistent(hasProvider, Commit(InsertExecution(s, r), r), l')
  {
    OthersRestAfterInsert(hasProvider, s, l, r);
    CommitKeepsConsistent(hasProvider, InsertExecution(s, r), l, r, l');
  }

  lemma OthersRestAfterInsert(hasProvider: bool, s: StoreState, l: Ledger, r: ExecutionRecord)
    requires Consistent(hasProvider, s, l) && r.id.executionId !in s.executions
    ensures forall id :: id != r.id.executionId ==> Rests(hasProvider, InsertExecution(s, r), l, id)
  {
    forall id | id != r.id.executionId
      ensures Rests(hasProvider, InsertExecution(s, r), l, id)
    {
      assert Rests(hasProvider, s, l, id);
    }
  }

  lemma ExecuteKeepsLedgerValid(c: Config, r: ExecutionRecord, l: Ledger, env: SubmitEnv)
    requires LedgerValid(l) && FreshTxnId(l, env.freshTxnId)
    ensures LedgerValid(ExecuteEffect(c, r, l, env).ledger)
  {
  }

  lemma AtRestIgnoresTimes(hasProvider: bool, r: ExecutionRecord, q: ExecutionRecord, op: Operation, l: Ledger)
    requires Timeless(r) == Timeless(q)
    ensures AtRest(hasProvider, r, op, l) == AtRest(hasProvider, q, op, l)
  {
  }

  lemma InsertKeepsRows(s: StoreState, r: ExecutionRecord, l: Ledger, l': Ledger)
    requires Linked(s) && RowsOwned(s, l) && LedgerGrowsFor(r, l, l')
    requires r.id.executionId !in s.executions && AnchorOf(r) !in s.executionByOperation
    requires r.id.operationId in s.operations && SameBusiness(r, s.operations[r.id.operationId])
    ensures RowsOwned(InsertExecution(s, r), l')
  {
    assert s.operationByKey[TxnKey(r)] == r.id.operationId;
    RowsStayOwned(s, l, InsertExecution(s, r), l');
  }

  /** The invariant does not depend on the audit log. */
  lemma AuditIsFree(hasProvider: bool, s: StoreState, l: Ledger, audit: seq<AuditRow>)
    ensures Linked(s) ==> Linked(s.(audit := audit))
    ensures Consistent(hasProvider, s, l) ==> Consistent(hasProvider, s.(audit := audit), l)
  {
    var s' := s.(audit := audit);
    if Consistent(hasProvider, s, l) {
      RowsStayOwned(s, l, s', l);
      forall id: string
        ensures Rests(hasProvider, s', l, id)
      {
        assert Rests(hasProvider, s, l, id);
      }
    }
  }

  lemma InsertThenCommit(s: StoreState, q: ExecutionRecord, r: ExecutionRecord)
    requires q.id == r.id && q.id.operationId in s.operations
    ensures var created := InsertExecution(s, q).(audit := s.audit + [Row(q, AuditCreate)]);
            Commit(created, r).(audit := created.audit + ExecuteAudit(r)[1..])
            == Commit(InsertExecution(s, r), r).(audit := s.audit + ExecuteAudit(r))
  {
    assert s.executions[q.id.executionId := q][r.id.executionId := r] == s.executions[r.id.executionId := r];
    assert (s.audit + [Row(q, AuditCreate)]) + ExecuteAudit(r)[1..] == s.audit + ExecuteAudit(r);
  }

  lemma SettleFromFailed(c: Config, r: ExecutionRecord, failed: ExecutionRecord, l: Ledger, fault: Fault)
    requires r.status == FailedDispatched || CanTransition(r.status, FailedDispatched)
    requires Timeless(failed) == Timeless(r.(status := FailedDispatched))
    ensures var (l', receipt) := Reverse(c, failed, l, fault);
            var e := SettleEffect(c, r, l, fault);
            e.ledger == l' && Timeless(e.record) == Timeless(Reversed(failed, receipt))
  {
  }

  /** A second write to the same record hides the first. */
  lemma CommitOverwrites(s: StoreState, q: ExecutionRecord, r: ExecutionRecord)
    requires q.id.executionId == r.id.executionId && r.id.operationId in s.operations
    ensures Commit(PutExecution(s, q), r) == Commit(s, r)
  {
    assert s.executions[q.id.executionId := q][r.id.executionId := r] == s.executions[r.id.executionId := r];
  }

  // ----- the manual compensation entry point -----

  datatype CompensateReply = Replayed(succeeded: bool) | Attempted(receipt: Option<Receipt>)

  /** `compensate` reverses through the provider first and checks the move afterwards; it leaves the operation alone. */
  ghost predicate CompensateSpec(c: Config, tenantId: string, id: string, fault: Fault, s: StoreState, l: Ledger,
                                 s': StoreState, l': Ledger, result: Result<CompensateReply>)
  {
    if id !in s.executions || s.executions[id].id.tenantId != tenantId then
      s' == s && l' == l && result == Raised(Error.NotFound)
    else
      var r := s.executions[id];
      if r.status in {Compensated, CompensationFailed} then
        s' == s && l' == l && result == Ok(Replayed(r.status == Compensated))
      else
        var (reversed, receipt) := Reverse(c, r, l, fault);
        var r' := Reversed(r, receipt);
        l' == reversed
        && if !CanTransition(r.status, r'.status) then
             s' == s && result == Raised(IllegalTransition)
           else
             && id in s'.executions && Timeless(s'.executions[id]) == Timeless(r') && s'.executions[id].id == r.id
             && s' == PutExecution(s, s'.executions[id]).(audit := s.audit + SettleAudit(s'.executions[id]))
             && result == Ok(Attempted(receipt))
  }

  /** On an orderly store with a provider, compensating keeps store and ledger in order exactly when the record was
      already compensated (or its compensation had failed), or the request never reached the ledger: every other
      record at rest refuses the move only after its money has been reversed. */
  lemma CompensateKeepsOrderExactlyOnReplay(c: Config, tenantId: string, id: string, fault: Fault, s: StoreState,
                                            l: Ledger, s': StoreState, l': Ledger, result: Result<CompensateReply>)
    requires c.hasProvider && Consistent(true, s, l) && id in s.executions && s.executions[id].id.tenantId == tenantId
    requires CompensateSpec(c, tenantId, id, fault, s, l, s', l', result)
    ensures Consistent(true, s', l')
       <==> s.executions[id].status in {Compensated, CompensationFailed} || fault == RequestLost
  {
    RestsAt(true, s, l, id);
    AtRestRefusesReversal(s.executions[id], s.operations[s.executions[id].id.operationId], l);
    RestNeverCompensates(c, tenantId, id, fault, s, l, s', l', result);
    if s.executions[id].status !in {Compensated, CompensationFailed} && fault != RequestLost {
      StrayReversal(s, l', id);
    }
  }

  lemma RestNeverCompensates(c: Config, tenantId: string, id: string, fault: Fault, s: StoreState, l: Ledger,
                             s': StoreState, l': Ledger, result: Result<CompensateReply>)
    requires c.hasProvider && id in s.executions && s.executions[id].id.tenantId == tenantId
    requires s.executions[id].status in {Compensated, CompensationFailed} || RefusesReversal(s.executions[id])
    requires CompensateSpec(c, tenantId, id, fault, s, l, s', l', result)
    ensures s' == s
    ensures s.executions[id].status in {Compensated, CompensationFailed} || fault == RequestLost ==> l' == l
    ensures s.executions[id].status !in {Compensated, CompensationFailed} && fault != RequestLost ==>
              ReversalKey(s.executions[id]) in l'.reversals
  {
  }

  predicate RefusesReversal(r: ExecutionRecord) {
    !CanTransition(r.status, Compensated) && !CanTransition(r.status, CompensationFailed)
  }

  lemma AtRestRefusesReversal(r: ExecutionRecord, op: Operation, l: Ledger)
    requires AtRest(true, r, op, l)
    ensures r.status in {Compensated, CompensationFailed} || RefusesReversal(r)
  {
  }

  lemma StrayReversal(s: StoreState, l: Ledger, id: string)
    requires id in s.executions && s.executions[id].status !in {Compensated, CompensationFailed}
    requires ReversalKey(s.executions[id]) in l.reversals
    ensures !Consistent(true, s, l)
  {
    if Consistent(true, s, l) {
      RestsAt(true, s, l, id);
      assert false;
    }
  }
}
