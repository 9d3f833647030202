/** What one completed engine call does to a record and to the ledger, and the invariant that every
    completed call keeps. Clock readings are erased: the effects fix which times are set, not their values. */
module ExecutionEffects {
  import opened Wrappers
  import opened ExecutionTypes
  import opened CallbackPlan
  import opened MemoryStore
  import opened Gateway

  /** The engine's fixed parts: whether a provider is configured, and its uninterpreted id derivations. */
  datatype Config = Config(
    hasProvider: bool,
    deriveTxnId: string -> string,
    syntheticReversal: string -> string,
    reversalId: (string, string, string) -> string)

  function Stamp(t: Option<real>): Option<real> {
    if t.Some? then Some(0.0) else None
  }

  function Timeless(r: ExecutionRecord): ExecutionRecord {
    r.(times := Times(0.0, 0.0, Stamp(r.times.submittedAt), Stamp(r.times.confirmedAt)))
  }

  function TxnKey(r: ExecutionRecord): (string, string) {
    (r.id.tenantId, r.id.idempotencyKey)
  }

  function ReversalKey(r: ExecutionRecord): (string, string, string) {
    (r.id.tenantId, r.id.idempotencyKey, r.id.executionId)
  }

  datatype Effect = Effect(record: ExecutionRecord, ledger: Ledger)

  // ----- compensation -----

  /** The ledger after a reversal request, and the receipt unless the call failed. */
  function Reverse(c: Config, r: ExecutionRecord, l: Ledger, fault: Fault): (Ledger, Option<Receipt>) {
    if !c.hasProvider then (l, Some(Receipt(Some(c.syntheticReversal(r.id.idempotencyKey)), r.id.amount, WireReversed)))
    else if fault == RequestLost then (l, None)
    else
      var l' := InsertReversal(l, ReversalKey(r), AmountOf(r));
      (l', if fault == ReplyLost then None
           else Some(Receipt(Some(c.reversalId(r.id.tenantId, r.id.idempotencyKey, r.id.executionId)),
                             Some(l'.reversals[ReversalKey(r)]), WireReversed)))
  }

  function Reversed(r: ExecutionRecord, receipt: Option<Receipt>): ExecutionRecord {
    if receipt.Some? then
      StampConfirmed(r.(status := Compensated, compensationResult := receipt), 0.0)
    else
      StampConfirmed(r.(status := CompensationFailed), 0.0)
  }

  /** Settling a failed dispatch: normalise to FAILED_DISPATCHED, reverse, and close. */
  function SettleEffect(c: Config, r: ExecutionRecord, l: Ledger, fault: Fault): Effect {
    if r.status != FailedDispatched && !CanTransition(r.status, FailedDispatched) then
      Effect(r.(status := HumanHandoff), l)
    else
      var (l', receipt) := Reverse(c, r, l, fault);
      Effect(Reversed(r, receipt), l')
  }

  // ----- execute -----

  /** The environment of one `execute`: the gateway's fresh id and verdict, and what the network does. */
  datatype SubmitEnv = SubmitEnv(freshTxnId: string, status: WireStatus, submitFault: Fault, compensateFault: Fault)

  predicate Success(status: WireStatus) {
    status in {WireSucceeded, WireSuccess}
  }

  function SubmittedRecord(r: ExecutionRecord, x: string, receipt: Receipt): ExecutionRecord {
    StampSubmitted(r.(status := Submitted, externalTxnId := Some(x), receipt := Some(receipt)), 0.0)
  }

  /** What the provider's answer makes of a claimed record; None is a `ProviderError`. */
  function AfterSubmit(c: Config, r: ExecutionRecord, l: Ledger, reply: Option<Txn>, fault: Fault): Effect {
    if reply.None? then
      Effect(r.(status := FailedUncertain), l)
    else
      var t := reply.value;
      var x := if t.externalTxnId != "" then t.externalTxnId else c.deriveTxnId(r.id.idempotencyKey);
      if Success(t.status) then
        Effect(SubmittedRecord(r, x, TxnReceipt(t)), l)
      else
        SettleEffect(c, r.(status := FailedDispatched, externalTxnId := Some(x)), l, fault)
  }

  function SubmitEffect(c: Config, r: ExecutionRecord, l: Ledger, env: SubmitEnv): Effect {
    var l' := if env.submitFault == RequestLost then l
              else InsertTxn(l, TxnKey(r), Txn(env.freshTxnId, AmountOf(r), env.status));
    AfterSubmit(c, r.(attempts := 1), l',
                if env.submitFault == Healthy then Some(l'.txns[TxnKey(r)]) else None, env.compensateFault)
  }

  function ShadowEffect(c: Config, r: ExecutionRecord): ExecutionRecord {
    var x := c.deriveTxnId(r.id.idempotencyKey);
    StampConfirmed(StampSubmitted(r.(status := Confirmed, externalTxnId := Some(x),
                                     receipt := Some(Receipt(Some(x), r.id.amount, WireSucceeded))), 0.0), 0.0)
  }

  function ExecuteEffect(c: Config, r: ExecutionRecord, l: Ledger, env: SubmitEnv): Effect {
    if r.id.mode == Shadow then Effect(ShadowEffect(c, r), l) else SubmitEffect(c, r, l, env)
  }

  // ----- reconcile -----

  datatype Verdict = SettledConfirmed | SettledMismatch | SettledHandoff

  datatype ReconcileFaults = ReconcileFaults(query: Fault, compensate: Fault)

  function MismatchRecord(r: ExecutionRecord): ExecutionRecord {
    StampConfirmed(r.(status := Mismatched), 0.0)
  }

  /** What the provider's answer makes of an open record. */
  function AfterQuery(c: Config, r: ExecutionRecord, l: Ledger, reply: QueryReply, fault: Fault): Effect {
    if !reply.Found? then Effect(MismatchRecord(r), l)
    else if Success(reply.txn.status) then
      if CanTransition(r.status, Confirmed) then
        Effect(StampConfirmed(r.(status := Confirmed, receipt := Some(TxnReceipt(reply.txn))), 0.0), l)
      else Effect(MismatchRecord(r), l)
    else if reply.txn.status in {WireFailed, WireRejected} then SettleEffect(c, r, l, fault)
    else Effect(MismatchRecord(r), l)
  }

  ghost function ReconcileEffect(c: Config, r: ExecutionRecord, l: Ledger, f: ReconcileFaults): Effect {
    if r.externalTxnId.None? || !c.hasProvider then Effect(MismatchRecord(r), l)
    else AfterQuery(c, r, l, QueryLedger(l, r.id.tenantId, r.externalTxnId.value, f.query), f.compensate)
  }

  /** The counter a settled record is reported under. */
  function VerdictOf(final: ExecutionStatus): Verdict {
    if final == Mismatched then SettledMismatch
    else if final == CompensationFailed then SettledHandoff
    else SettledConfirmed
  }

  // ----- the operation that goes with a record, and the audit rows -----

  function OperationStatusFor(s: ExecutionStatus): OperationStatus {
    match s
    case Mismatched => OpHandoff
    case CompensationFailed => OpHandoff
    case HumanHandoff => OpHandoff
    case PendingSubmit => OpPending
    case _ => OpExecuted
  }

  function Mark(op: Operation, s: ExecutionStatus): Operation {
    op.(status := OperationStatusFor(s), result := Some(s))
  }

  /** Writes a record and brings its operation in line with it. */
  function Commit(s: StoreState, r: ExecutionRecord): StoreState
    requires r.id.operationId in s.operations
  {
    s.(executions := s.executions[r.id.executionId := r],
       operations := s.operations[r.id.operationId := Mark(s.operations[r.id.operationId], r.status)])
  }

  function Row(r: ExecutionRecord, action: AuditAction): AuditRow {
    AuditRow(r.id.tenantId, action, r.id.executionId)
  }

  function SettleAudit(r: ExecutionRecord): seq<AuditRow> {
    match r.status
    case Compensated => [Row(r, AuditCompensated)]
    case CompensationFailed => [Row(r, AuditCompensationFailed)]
    case _ => []
  }

  function ExecuteAudit(r: ExecutionRecord): seq<AuditRow> {
    [Row(r, AuditCreate)]
    + if r.status == FailedUncertain then [Row(r, AuditSubmitUncertain)] else SettleAudit(r)
  }

  function ReconcileAudit(r: ExecutionRecord): seq<AuditRow> {
    match r.status
    case Confirmed => [Row(r, AuditReconcileConfirmed)]
    case Mismatched => [Row(r, AuditReconcileMismatch)]
    case _ => SettleAudit(r)
  }

  // ----- the invariant of completed calls -----

  predicate SameBusiness(r: ExecutionRecord, op: Operation) {
    && op.operationId == r.id.operationId && op.tenantId == r.id.tenantId && op.idempotencyKey == r.id.idempotencyKey
    && op.pendingAction == r.id.pendingAction && op.orderId == r.id.orderId
  }

  /** Every execution belongs to a stored operation. */
  ghost predicate Linked(s: StoreState) {
    && ValidStore(s)
    && (forall id :: id in s.executions ==>
          s.executions[id].id.operationId in s.operations
          && SameBusiness(s.executions[id], s.operations[s.executions[id].id.operationId]))
  }

  /** A record at rest, its operation and its ledger rows. */
  predicate AtRest(hasProvider: bool, r: ExecutionRecord, op: Operation, l: Ledger) {
    && r.status in {PendingSubmit, Submitted, FailedUncertain, Confirmed, Compensated,
                    CompensationFailed, Mismatched}
    && (r.status == PendingSubmit ==> !hasProvider && r.id.mode == Live && r.attempts == 0 && r.externalTxnId.None?)
    && (r.status != PendingSubmit ==> op.status == OperationStatusFor(r.status) && op.result == Some(r.status))
    && (r.status == Submitted ==>
          && r.attempts == 1 && r.times.submittedAt.Some? && r.externalTxnId.Some?
          && TxnKey(r) in l.txns
          && (l.txns[TxnKey(r)].externalTxnId != "" ==> r.externalTxnId == Some(l.txns[TxnKey(r)].externalTxnId)))
    && (r.status == FailedUncertain ==> r.attempts == 1 && r.externalTxnId.None?)
    && (IsTerminal(r.status) ==> r.times.confirmedAt.Some?)
    && (r.id.mode == Shadow ==> r.status == Confirmed)
    && (TxnKey(r) in l.txns ==> r.id.mode == Live && r.attempts == 1)
    && (r.status == Compensated && hasProvider ==> ReversalKey(r) in l.reversals)
    && (ReversalKey(r) in l.reversals ==> r.status in {Compensated, CompensationFailed})
    && SameMoney(r, l)
  }

  /** The record's ledger rows carry the record's amount, or nothing if it has none. */
  predicate SameMoney(r: ExecutionRecord, l: Ledger) {
    && (TxnKey(r) in l.txns ==> l.txns[TxnKey(r)].amount == if r.id.amount.Some? then r.id.amount.value else 0.0)
    && (ReversalKey(r) in l.reversals ==>
          l.reversals[ReversalKey(r)] == if r.id.amount.Some? then r.id.amount.value else 0.0)
  }

  predicate TxnOwned(s: StoreState, l: Ledger, k: (string, string)) {
    k in l.txns ==> k in s.operationByKey && (k.0, s.operationByKey[k]) in s.executionByOperation
  }

  predicate ReversalOwned(s: StoreState, l: Ledger, k: (string, string, string)) {
    k in l.reversals ==> k.2 in s.executions && ReversalKey(s.executions[k.2]) == k
  }

  /** Every ledger row belongs to the execution of the operation with that key. */
  ghost predicate RowsOwned(s: StoreState, l: Ledger) {
    (forall k :: TxnOwned(s, l, k)) && (forall k :: ReversalOwned(s, l, k))
  }

  /** Records and keys kept, and rows added only for keys that are owned: every row stays owned. */
  lemma RowsStayOwned(s: StoreState, l: Ledger, s': StoreState, l': Ledger)
    requires RowsOwned(s, l) && s'.operationByKey == s.operationByKey
    requires forall k :: k in s.executionByOperation ==> k in s'.executionByOperation
    requires forall id :: id in s.executions ==> id in s'.executions && s'.executions[id].id == s.executions[id].id
    requires forall k :: k in l'.txns && k !in l.txns ==> TxnOwned(s', l', k)
    requires forall k :: k in l'.reversals && k !in l.reversals ==> ReversalOwned(s', l', k)
    ensures RowsOwned(s', l')
  {
    forall k
      ensures ReversalOwned(s', l', k)
    {
      assert ReversalOwned(s, l, k);
    }
    forall k
      ensures TxnOwned(s', l', k)
    {
      assert TxnOwned(s, l, k);
    }
  }

  /** The record with this id, if any, is at rest. */
  predicate Rests(hasProvider: bool, s: StoreState, l: Ledger, id: string) {
    id in s.executions && s.executions[id].id.operationId in s.operations ==>
      AtRest(hasProvider, s.executions[id], s.operations[s.executions[id].id.operationId], l)
  }

  ghost predicate Consistent(hasProvider: bool, s: StoreState, l: Ledger) {
    && Linked(s)
    && LedgerValid(l)
    && RowsOwned(s, l)
    && (forall id :: Rests(hasProvider, s, l, id))
  }

  lemma RestsAt(hasProvider: bool, s: StoreState, l: Ledger, id: string)
    requires Consistent(hasProvider, s, l) && id in s.executions
    ensures s.executions[id].id.operationId in s.operations
    ensures AtRest(hasProvider, s.executions[id], s.operations[s.executions[id].id.operationId], l)
  {
    assert Rests(hasProvider, s, l, id);
  }

  lemma StartsConsistent(hasProvider: bool)
    ensures Consistent(hasProvider, StoreState(map[], map[], map[], [], map[], []), Ledger(map[], map[]))
  {
  }

  /** Rows are only added, and only under this record's keys. */
  ghost predicate LedgerGrowsFor(r: ExecutionRecord, l: Ledger, l': Ledger) {
    && (forall k :: k in l.txns ==> k in l'.txns && l'.txns[k] == l.txns[k])
    && (forall k :: k in l'.txns ==> k in l.txns || k == TxnKey(r))
    && (forall k :: k in l.reversals ==> k in l'.reversals && l'.reversals[k] == l.reversals[k])
    && (forall k :: k in l'.reversals ==> k in l.reversals || k == ReversalKey(r))
  }

  /** Both ledgers have the same reversal row for the record, or none. */
  predicate SameReversal(r: ExecutionRecord, l: Ledger, m: Ledger) {
    && (ReversalKey(r) in l.reversals <==> ReversalKey(r) in m.reversals)
    && (ReversalKey(r) in l.reversals ==> l.reversals[ReversalKey(r)] == m.reversals[ReversalKey(r)])
  }

  /** Two executions share neither an operation nor a ledger key. */
  lemma KeysIdentify(s: StoreState, i: string, j: string)
    requires Linked(s) && i in s.executions && j in s.executions
    ensures s.executions[i].id.operationId == s.executions[j].id.operationId ==> i == j
    ensures TxnKey(s.executions[i]) == TxnKey(s.executions[j]) ==> i == j
  {
    var r, q := s.executions[i], s.executions[j];
    assert s.operations[r.id.operationId].tenantId == r.id.tenantId;
    if TxnKey(r) == TxnKey(q) {
      assert s.operationByKey[TxnKey(r)] == r.id.operationId;
    }
  }

  /** Ledger rows of other keys do not matter to a record at rest. */
  lemma AtRestFrame(hasProvider: bool, r: ExecutionRecord, op: Operation, l: Ledger, l': Ledger)
    requires AtRest(hasProvider, r, op, l)
    requires TxnKey(r) in l.txns <==> TxnKey(r) in l'.txns
    requires TxnKey(r) in l.txns ==> l.txns[TxnKey(r)] == l'.txns[TxnKey(r)]
    requires SameReversal(r, l, l')
    ensures AtRest(hasProvider, r, op, l')
  {
  }

  lemma CommitKeepsLinked(s: StoreState, r: ExecutionRecord)
    requires Linked(s) && r.id.executionId in s.executions
    requires SameBusiness(r, s.operations[s.executions[r.id.executionId].id.operationId])
    ensures Linked(Commit(s, r))
  {
    RewriteKeepsValid(s, r, Mark(s.operations[r.id.operationId], r.status));
  }

  /** One record settled with its operation and its own ledger rows: every other record stays as it was. */
  lemma CommitKeepsConsistent(hasProvider: bool, s: StoreState, l: Ledger, r: ExecutionRecord, l': Ledger)
    requires Linked(s) && LedgerValid(l') && RowsOwned(s, l') && r.id.executionId in s.executions
    requires s.executions[r.id.executionId].id == r.id
    requires forall id :: id != r.id.executionId ==> Rests(hasProvider, s, l, id)
    requires LedgerGrowsFor(r, l, l')
    requires AtRest(hasProvider, r, Mark(s.operations[r.id.operationId], r.status), l')
    ensures Consistent(hasProvider, Commit(s, r), l')
  {
    CommitKeepsLinked(s, r);
    CommitKeepsRows(s, r, l');
    forall id: string
      ensures Rests(hasProvider, Commit(s, r), l', id)
    {
      if id in s.executions && id != r.id.executionId {
        assert Rests(hasProvider, s, l, id);
        OtherStaysAtRest(hasProvider, s, l, r, l', id);
        OtherUntouched(hasProvider, s, r, l', id);
      }
    }
  }

  lemma OtherUntouched(hasProvider: bool, s: StoreState, r: ExecutionRecord, l: Ledger, id: string)
    requires id in s.executions && id != r.id.executionId && r.id.operationId in s.operations
    requires s.executions[id].id.operationId != r.id.operationId && Rests(hasProvider, s, l, id)
    ensures Rests(hasProvider, Commit(s, r), l, id)
  {
  }

  lemma OtherStaysAtRest(hasProvider: bool, s: StoreState, l: Ledger, r: ExecutionRecord, l': Ledger, id: string)
    requires Linked(s) && r.id.executionId in s.executions && id in s.executions && id != r.id.executionId
    requires SameBusiness(r, s.operations[s.executions[r.id.executionId].id.operationId])
    requires LedgerGrowsFor(r, l, l')
    requires AtRest(hasProvider, s.executions[id], s.operations[s.executions[id].id.operationId], l)
    ensures s.executions[id].id.operationId != r.id.operationId
    ensures AtRest(hasProvider, s.executions[id], s.operations[s.executions[id].id.operationId], l')
  {
    KeysIdentify(s, id, r.id.executionId);
    AtRestFrame(hasProvider, s.executions[id], s.operations[s.executions[id].id.operationId], l, l');
  }

  lemma CommitKeepsRows(s: StoreState, r: ExecutionRecord, l: Ledger)
    requires Linked(s) && RowsOwned(s, l) && r.id.executionId in s.executions
    requires s.executions[r.id.executionId].id == r.id
    ensures RowsOwned(Commit(s, r), l)
  {
    RowsStayOwned(s, l, Commit(s, r), l);
  }

  /** The ledger holds nothing for an operation that has no execution yet. */
  lemma NothingBeforeExecution(hasProvider: bool, s: StoreState, l: Ledger, op: Operation, freshId: string)
    requires Consistent(hasProvider, s, l) && op.operationId in s.operations
    requires KeyOf(s.operations[op.operationId]) == KeyOf(op)
    requires (op.tenantId, op.operationId) !in s.executionByOperation && freshId !in s.executions
    ensures KeyOf(op) !in l.txns
    ensures (op.tenantId, op.idempotencyKey, freshId) !in l.reversals
  {
    assert TxnOwned(s, l, KeyOf(op));
    assert ReversalOwned(s, l, (op.tenantId, op.idempotencyKey, freshId));
  }

  /** Conservation: a (tenant, key) has at most one reversal; a reversal belongs to a record that is compensated
      or whose compensation failed; a compensated record has one; a submitted one is in the ledger; so no
      money is both confirmed and reversed. */
  lemma MoneyMovesOnce(s: StoreState, l: Ledger, id: string, e: string)
    requires Consistent(true, s, l) && id in s.executions
    ensures var r := s.executions[id];
            ((r.id.tenantId, r.id.idempotencyKey, e) in l.reversals ==>
               e == id && r.status in {Compensated, CompensationFailed})
            && (r.status == Compensated ==> ReversalKey(r) in l.reversals)
            && (r.status == Submitted ==> TxnKey(r) in l.txns)
            && !(r.status == Confirmed && (r.id.tenantId, r.id.idempotencyKey, e) in l.reversals)
            && (TxnKey(r) in l.txns ==>
                  l.txns[TxnKey(r)].amount == if r.id.amount.Some? then r.id.amount.value else 0.0)
            && (TxnKey(r) in l.txns && (r.id.tenantId, r.id.idempotencyKey, e) in l.reversals ==>
                  l.reversals[(r.id.tenantId, r.id.idempotencyKey, e)] == l.txns[TxnKey(r)].amount)
  {
    var r := s.executions[id];
    assert Rests(true, s, l, id);
    assert ReversalOwned(s, l, (r.id.tenantId, r.id.idempotencyKey, e));
    if (r.id.tenantId, r.id.idempotencyKey, e) in l.reversals && e != id {
      KeysIdentify(s, e, id);
    }
  }

  // ----- effects keep the invariant -----

  lemma ReverseGrows(c: Config, r: ExecutionRecord, l: Ledger, fault: Fault)
    ensures var (l', receipt) := Reverse(c, r, l, fault);
            LedgerGrowsFor(r, l, l') && l'.txns == l.txns
            && (receipt.Some? && c.hasProvider ==> ReversalKey(r) in l'.reversals)
            && (!c.hasProvider ==> receipt.Some? && l' == l)
  {
  }

  /** `execute` brings a new record to rest, submits it at most once, and only ever adds its own rows. */
  lemma ExecuteComesToRest(c: Config, r: ExecutionRecord, op: Operation, l: Ledger, env: SubmitEnv)
    requires r.status == PendingSubmit && r.attempts == 0 && r.externalTxnId.None? && SameBusiness(r, op)
    requires TxnKey(r) !in l.txns && ReversalKey(r) !in l.reversals
    requires LedgerValid(l) && FreshTxnId(l, env.freshTxnId)
    requires r.id.mode == Live ==> c.hasProvider
    ensures var e := ExecuteEffect(c, r, l, env);
            AtRest(c.hasProvider, e.record, Mark(op, e.record.status), e.ledger)
            && LedgerGrowsFor(r, l, e.ledger) && LedgerValid(e.ledger)
            && (e.record.status == Submitted
                <==> r.id.mode == Live && env.submitFault == Healthy && Success(env.status))
            && (e.record.status == FailedUncertain <==> r.id.mode == Live && env.submitFault != Healthy)
            && (TxnKey(r) in e.ledger.txns <==> r.id.mode == Live && env.submitFault != RequestLost)
  {
    if r.id.mode == Live {
      SubmitComesToRest(c, r, op, l, env);
    }
  }

  lemma SubmitComesToRest(c: Config, r: ExecutionRecord, op: Operation, l: Ledger, env: SubmitEnv)
    requires r.status == PendingSubmit && r.attempts == 0 && r.externalTxnId.None? && r.id.mode == Live && c.hasProvider
    requires TxnKey(r) !in l.txns && ReversalKey(r) !in l.reversals
    requires LedgerValid(l) && FreshTxnId(l, env.freshTxnId)
    ensures var e := SubmitEffect(c, r, l, env);
            AtRest(c.hasProvider, e.record, Mark(op, e.record.status), e.ledger)
            && LedgerGrowsFor(r, l, e.ledger) && LedgerValid(e.ledger)
            && (e.record.status == Submitted <==> env.submitFault == Healthy && Success(env.status))
            && (e.record.status == FailedUncertain <==> env.submitFault != Healthy)
            && (TxnKey(r) in e.ledger.txns <==> env.submitFault != RequestLost)
  {
    if env.submitFault == Healthy {
      AcceptedOrReversed(c, r.(attempts := 1), op, l, Txn(env.freshTxnId, AmountOf(r), env.status),
                         env.compensateFault);
    }
  }

  /** An answered submission: accepted, or refused and reversed. */
  lemma AcceptedOrReversed(c: Config, r: ExecutionRecord, op: Operation, l: Ledger, t: Txn, fault: Fault)
    requires r.status == PendingSubmit && r.attempts == 1 && r.externalTxnId.None? && r.id.mode == Live && c.hasProvider
    requires TxnKey(r) !in l.txns && ReversalKey(r) !in l.reversals && LedgerValid(l) && FreshTxnId(l, t.externalTxnId)
    requires t.amount == if r.id.amount.Some? then r.id.amount.value else 0.0
    ensures var e := AfterSubmit(c, r, InsertTxn(l, TxnKey(r), t), Some(t), fault);
            AtRest(c.hasProvider, e.record, Mark(op, e.record.status), e.ledger)
            && LedgerGrowsFor(r, l, e.ledger) && LedgerValid(e.ledger) && TxnKey(r) in e.ledger.txns
            && (e.record.status == Submitted <==> Success(t.status))
            && e.record.status != FailedUncertain
  {
    if Success(t.status) {
      AcceptedComesToRest(c, r, op, l, t, fault);
    } else {
      RefusedComesToRest(c, r, op, l, t, fault);
    }
  }

  lemma AcceptedComesToRest(c: Config, r: ExecutionRecord, op: Operation, l: Ledger, t: Txn, fault: Fault)
    requires r.status == PendingSubmit && r.attempts == 1 && r.externalTxnId.None? && r.id.mode == Live && c.hasProvider
    requires TxnKey(r) !in l.txns && ReversalKey(r) !in l.reversals && LedgerValid(l) && FreshTxnId(l, t.externalTxnId)
    requires t.amount == if r.id.amount.Some? then r.id.amount.value else 0.0
    requires Success(t.status)
    ensures var e := AfterSubmit(c, r, InsertTxn(l, TxnKey(r), t), Some(t), fault);
            AtRest(c.hasProvider, e.record, Mark(op, e.record.status), e.ledger)
            && LedgerGrowsFor(r, l, e.ledger) && LedgerValid(e.ledger) && TxnKey(r) in e.ledger.txns
            && e.record.status == Submitted
  {
  }

  lemma RefusedComesToRest(c: Config, r: ExecutionRecord, op: Operation, l: Ledger, t: Txn, fault: Fault)
    requires r.status == PendingSubmit && r.attempts == 1 && r.externalTxnId.None? && r.id.mode == Live && c.hasProvider
    requires TxnKey(r) !in l.txns && ReversalKey(r) !in l.reversals && LedgerValid(l) && FreshTxnId(l, t.externalTxnId)
    requires t.amount == if r.id.amount.Some? then r.id.amount.value else 0.0
    requires !Success(t.status)
    ensures var e := AfterSubmit(c, r, InsertTxn(l, TxnKey(r), t), Some(t), fault);
            AtRest(c.hasProvider, e.record, Mark(op, e.record.status), e.ledger)
            && LedgerGrowsFor(r, l, e.ledger) && LedgerValid(e.ledger) && TxnKey(r) in e.ledger.txns
            && e.record.status !in {Submitted, FailedUncertain}
  {
    var x := if t.externalTxnId != "" then t.externalTxnId else c.deriveTxnId(r.id.idempotencyKey);
    var l' := InsertTxn(l, TxnKey(r), t);
    var failed := r.(status := FailedDispatched, externalTxnId := Some(x));
    assert LedgerValid(l') && LedgerGrowsFor(r, l, l');
    ReverseGrows(c, failed, l', fault);
    FailedComesToRest(c, failed, op, l', fault);
  }

  /** A failed dispatch with its money in the ledger and not asked back yet is settled to rest. */
  lemma FailedComesToRest(c: Config, r: ExecutionRecord, op: Operation, l: Ledger, fault: Fault)
    requires r.status == FailedDispatched && r.attempts == 1 && r.id.mode == Live && c.hasProvider
    requires SameMoney(r, l) && ReversalKey(r) !in l.reversals
    ensures var e := SettleEffect(c, r, l, fault);
            AtRest(c.hasProvider, e.record, Mark(op, e.record.status), e.ledger)
            && e.record.status in {Compensated, CompensationFailed}
  {
  }

  /** `reconcile` closes whatever open record it is given, by a legal path, and leaves the transactions alone. */
  lemma ReconcileCloses(c: Config, r: ExecutionRecord, l: Ledger, f: ReconcileFaults)
    requires r.status in {Submitted, FailedUncertain, Reconciling, FailedDispatched}
    ensures var e := ReconcileEffect(c, r, l, f);
            IsTerminal(e.record.status) && LedgerGrowsFor(r, l, e.ledger) && e.ledger.txns == l.txns
            && (CanTransition(r.status, e.record.status)
                || (CanTransition(r.status, FailedDispatched) && CanTransition(FailedDispatched, e.record.status)))
            && (e.record.status == HumanHandoff ==> r.status == Reconciling)
            && e.record.id == r.id
  {
    SettleCloses(c, r, l, f.compensate);
  }

  lemma SettleCloses(c: Config, r: ExecutionRecord, l: Ledger, fault: Fault)
    requires !IsTerminal(r.status)
    ensures var e := SettleEffect(c, r, l, fault);
            IsTerminal(e.record.status) && LedgerGrowsFor(r, l, e.ledger) && e.ledger.txns == l.txns
            && (CanTransition(r.status, e.record.status)
                || (CanTransition(r.status, FailedDispatched) && CanTransition(FailedDispatched, e.record.status)))
            && (e.record.status == HumanHandoff ==> r.status in {Reconciling, Compensating})
            && e.record.id == r.id
  {
    ReverseGrows(c, r, l, fault);
  }

  lemma ReconcileComesToRest(c: Config, r: ExecutionRecord, op: Operation, l: Ledger, f: ReconcileFaults)
    requires AtRest(c.hasProvider, r, op, l) && r.status in {Submitted, FailedUncertain}
    ensures var e := ReconcileEffect(c, r, l, f);
            AtRest(c.hasProvider, e.record, Mark(op, e.record.status), e.ledger)
            && (r.status == FailedUncertain ==> e.record.status == Mismatched)
  {
    if r.externalTxnId.None? || !c.hasProvider {
      MismatchComesToRest(c, r, op, l);
    } else {
      QueriedComesToRest(c, r, op, l, QueryLedger(l, r.id.tenantId, r.externalTxnId.value, f.query), f.compensate);
    }
  }

  lemma MismatchComesToRest(c: Config, r: ExecutionRecord, op: Operation, l: Ledger)
    requires AtRest(c.hasProvider, r, op, l) && r.status in {Submitted, FailedUncertain}
    ensures AtRest(c.hasProvider, MismatchRecord(r), Mark(op, Mismatched), l)
  {
  }

  lemma QueriedComesToRest(c: Config, r: ExecutionRecord, op: Operation, l: Ledger, reply: QueryReply, fault: Fault)
    requires AtRest(c.hasProvider, r, op, l) && r.status in {Submitted, FailedUncertain}
    ensures var e := AfterQuery(c, r, l, reply, fault);
            AtRest(c.hasProvider, e.record, Mark(op, e.record.status), e.ledger)
  {
    SettleComesToRest(c, r, op, l, fault);
    MismatchComesToRest(c, r, op, l);
  }

  lemma SettleComesToRest(c: Config, r: ExecutionRecord, op: Operation, l: Ledger, fault: Fault)
    requires AtRest(c.hasProvider, r, op, l) && r.status in {Submitted, FailedUncertain}
    ensures var e := SettleEffect(c, r, l, fault);
            AtRest(c.hasProvider, e.record, Mark(op, e.record.status), e.ledger)
  {
    ReverseGrows(c, r, l, fault);
  }

  /** A callback, with the compensation it may trigger, brings a record at rest to rest. */
  lemma CallbackComesToRest(c: Config, r: ExecutionRecord, op: Operation, l: Ledger, nonce: string, p: Payload,
                            now: real, fault: Fault)
    requires AtRest(c.hasProvider, r, op, l)
    ensures var plan := MakePlan(r, nonce, p);
            var q := WritePlan(r, plan, nonce, now);
            var e := SettleEffect(c, q, l, fault);
            if plan.reason == DispatchFailed then
              q.status == FailedDispatched && AtRest(c.hasProvider, e.record, Mark(op, e.record.status), e.ledger)
            else AtRest(c.hasProvider, q, WriteOperation(op, plan), l)
  {
    PlannedMoveIsLegal(r, nonce, p);
    var plan := MakePlan(r, nonce, p);
    if plan.reason == DispatchFailed {
      ReportedFailureComesToRest(c, r, op, l, WritePlan(r, plan, nonce, now), fault);
    }
  }

  /** A record at rest that a callback has moved to FAILED_DISPATCHED is settled to rest. */
  lemma ReportedFailureComesToRest(c: Config, r: ExecutionRecord, op: Operation, l: Ledger, q: ExecutionRecord,
                                   fault: Fault)
    requires AtRest(c.hasProvider, r, op, l) && !IsTerminal(r.status) && q.status == FailedDispatched
    requires q.id == r.id && q.attempts == r.attempts && q.externalTxnId == r.externalTxnId
    ensures var e := SettleEffect(c, q, l, fault);
            AtRest(c.hasProvider, e.record, Mark(op, e.record.status), e.ledger)
  {
    ReverseGrows(c, q, l, fault);
  }

  /** Settling one record reads and writes only its own ledger rows. */
  lemma ReconcileIsLocal(c: Config, r: ExecutionRecord, l: Ledger, m: Ledger, f: ReconcileFaults)
    requires l.txns == m.txns
    requires SameReversal(r, l, m)
    ensures ReconcileEffect(c, r, l, f).record == ReconcileEffect(c, r, m, f).record
    ensures SameReversal(r, ReconcileEffect(c, r, l, f).ledger, ReconcileEffect(c, r, m, f).ledger)
  {
  }
}
