/** The in-memory store: operations, executions, their indexes and the audit log
    (src/infrastructure/store.py `MemoryStore`). */
module MemoryStore {
  import opened Wrappers
  import opened ExecutionTypes
  import opened CallbackPlan

  datatype StoreState = StoreState(
    operations: map<string, Operation>,
    operationByKey: map<(string, string), string>,
    executions: map<string, ExecutionRecord>,
    executionOrder: seq<string>,
    executionByOperation: map<(string, string), string>,
    audit: seq<AuditRow>)

  function KeyOf(op: Operation): (string, string) {
    (op.tenantId, op.idempotencyKey)
  }

  function AnchorOf(r: ExecutionRecord): (string, string) {
    (r.id.tenantId, r.id.operationId)
  }

  ghost predicate OperationsIndexed(s: StoreState) {
    && (forall id :: id in s.operations ==>
          && s.operations[id].operationId == id
          && KeyOf(s.operations[id]) in s.operationByKey
          && s.operationByKey[KeyOf(s.operations[id])] == id)
    && (forall k :: k in s.operationByKey ==>
          s.operationByKey[k] in s.operations && KeyOf(s.operations[s.operationByKey[k]]) == k)
  }

  ghost predicate ExecutionsIndexed(s: StoreState) {
    && (forall id :: id in s.executions ==>
          && s.executions[id].id.executionId == id
          && AnchorOf(s.executions[id]) in s.executionByOperation
          && s.executionByOperation[AnchorOf(s.executions[id])] == id)
    && (forall k :: k in s.executionByOperation ==>
          s.executionByOperation[k] in s.executions && AnchorOf(s.executions[s.executionByOperation[k]]) == k)
    && (forall i :: 0 <= i < |s.executionOrder| ==> s.executionOrder[i] in s.executions)
    && (forall id :: id in s.executions ==> id in s.executionOrder)
    && (forall i, j :: 0 <= i < j < |s.executionOrder| ==> s.executionOrder[i] != s.executionOrder[j])
  }

  ghost predicate ValidStore(s: StoreState) {
    OperationsIndexed(s) && ExecutionsIndexed(s)
  }

  /** A lookup through either index returns what a scan of all rows would, and no two rows share an entry:
      one operation per (tenant, idempotency key), one execution per (tenant, operation). */
  lemma IndexesAgreeWithScan(s: StoreState, k: (string, string))
    requires ValidStore(s)
    ensures (set id | id in s.operations && KeyOf(s.operations[id]) == k)
         == if k in s.operationByKey then {s.operationByKey[k]} else {}
    ensures (set id | id in s.executions && AnchorOf(s.executions[id]) == k)
         == if k in s.executionByOperation then {s.executionByOperation[k]} else {}
  {
    if k in s.operationByKey {
      assert s.operationByKey[k] in s.operations;
    }
    if k in s.executionByOperation {
      assert s.executionByOperation[k] in s.executions;
    }
  }

  // ----- effects on the state -----

  function InsertOperation(s: StoreState, op: Operation): StoreState {
    s.(operations := s.operations[op.operationId := op],
       operationByKey := s.operationByKey[KeyOf(op) := op.operationId])
  }

  function InsertExecution(s: StoreState, r: ExecutionRecord): StoreState {
    s.(executions := s.executions[r.id.executionId := r],
       executionOrder := s.executionOrder + [r.id.executionId],
       executionByOperation := s.executionByOperation[AnchorOf(r) := r.id.executionId])
  }

  function PutExecution(s: StoreState, r: ExecutionRecord): StoreState {
    s.(executions := s.executions[r.id.executionId := r])
  }

  function PutOperation(s: StoreState, op: Operation): StoreState {
    s.(operations := s.operations[op.operationId := op])
  }

  /** The tenant's records in insertion order. */
  function TenantRecords(order: seq<string>, executions: map<string, ExecutionRecord>, tenantId: string)
    : seq<ExecutionRecord>
    requires forall i :: 0 <= i < |order| ==> order[i] in executions
  {
    if order == [] then []
    else
      var n := |order| - 1;
      var init := TenantRecords(order[..n], executions, tenantId);
      if executions[order[n]].id.tenantId == tenantId then init + [executions[order[n]]] else init
  }

  ghost predicate Distinct(rs: seq<ExecutionRecord>) {
    forall i, j :: 0 <= i < j < |rs| ==> rs[i].id.executionId != rs[j].id.executionId
  }

  /** A listing holds exactly the tenant's records, each once. */
  lemma {:induction false} TenantRecordsExact(order: seq<string>, executions: map<string, ExecutionRecord>,
                                              tenantId: string)
    requires forall i :: 0 <= i < |order| ==> order[i] in executions
    requires forall id :: id in executions ==> executions[id].id.executionId == id
    requires forall i, j :: 0 <= i < j < |order| ==> order[i] != order[j]
    ensures var rs := TenantRecords(order, executions, tenantId);
            Distinct(rs)
            && forall r :: r in rs
                      <==> r.id.executionId in order && executions[r.id.executionId] == r && r.id.tenantId == tenantId
  {
    if order != [] {
      var n := |order| - 1;
      var init := TenantRecords(order[..n], executions, tenantId);
      TenantRecordsExact(order[..n], executions, tenantId);
      assert forall id :: id in order <==> id == order[n] || id in order[..n];
      assert forall i :: 0 <= i < |init| ==> init[i] in init;
    }
  }

  /** One id comes before another in this order. */
  ghost predicate Before(order: seq<string>, x: string, y: string) {
    exists p, q :: 0 <= p < q < |order| && order[p] == x && order[q] == y
  }

  /** And in the order of their insertion. */
  lemma {:induction false} TenantRecordsInOrder(order: seq<string>, executions: map<string, ExecutionRecord>,
                                                tenantId: string, i: nat, j: nat)
    requires forall k :: 0 <= k < |order| ==> order[k] in executions
    requires forall id :: id in executions ==> executions[id].id.executionId == id
    requires i < j < |TenantRecords(order, executions, tenantId)|
    ensures var rs := TenantRecords(order, executions, tenantId);
            Before(order, rs[i].id.executionId, rs[j].id.executionId)
  {
    var n := |order| - 1;
    var init := TenantRecords(order[..n], executions, tenantId);
    if j < |init| {
      TenantRecordsInOrder(order[..n], executions, tenantId, i, j);
      var p, q :| 0 <= p < q < n && order[..n][p] == init[i].id.executionId && order[..n][q] == init[j].id.executionId;
      assert order[p] == init[i].id.executionId && order[q] == init[j].id.executionId;
    } else {
      var p := TenantRecordPlace(order[..n], executions, tenantId, i);
      assert order[p] == init[i].id.executionId && order[n] == executions[order[n]].id.executionId;
    }
  }

  lemma {:induction false} TenantRecordPlace(order: seq<string>, executions: map<string, ExecutionRecord>,
                                             tenantId: string, i: nat)
    returns (p: nat)
    requires forall k :: 0 <= k < |order| ==> order[k] in executions
    requires forall id :: id in executions ==> executions[id].id.executionId == id
    requires i < |TenantRecords(order, executions, tenantId)|
    ensures p < |order| && order[p] == TenantRecords(order, executions, tenantId)[i].id.executionId
  {
    var n := |order| - 1;
    var init := TenantRecords(order[..n], executions, tenantId);
    if i < |init| {
      p := TenantRecordPlace(order[..n], executions, tenantId, i);
    } else {
      p := n;
    }
  }

  /** The store after an atomic callback; a missing or foreign record leaves it untouched. */
  function CallbackState(s: StoreState, tenantId: string, executionId: string, nonce: string, p: Payload, now: real)
    : StoreState
  {
    if executionId !in s.executions || s.executions[executionId].id.tenantId != tenantId then s
    else
      var r := s.executions[executionId];
      var plan := MakePlan(r, nonce, p);
      s.(executions := s.executions[executionId := Touch(WritePlan(r, plan, nonce, now), now)],
         operations := if r.id.operationId in s.operations && s.operations[r.id.operationId].tenantId == tenantId
                       then s.operations[r.id.operationId := WriteOperation(s.operations[r.id.operationId], plan)]
                       else s.operations,
         audit := if plan.nextStatus.Some? then s.audit + [CallbackAudit(r, plan.reason)] else s.audit)
  }

  function CallbackAudit(r: ExecutionRecord, reason: Reason): AuditRow {
    AuditRow(r.id.tenantId, AuditCallback(reason), r.id.executionId)
  }

  datatype CallbackOutcome =
    | CallbackNotFound
    | CallbackOutcome(applied: bool, reason: Reason, status: ExecutionStatus, receipt: Option<Receipt>,
                      claimedNonce: Option<string>)

  function OutcomeOf(plan: Plan): CallbackOutcome {
    CallbackOutcome(plan.applied, plan.reason, plan.status, plan.receipt, plan.claimedNonce)
  }

  function CallbackReply(s: StoreState, tenantId: string, executionId: string, nonce: string, p: Payload)
    : CallbackOutcome
  {
    if executionId !in s.executions || s.executions[executionId].id.tenantId != tenantId then CallbackNotFound
    else OutcomeOf(MakePlan(s.executions[executionId], nonce, p))
  }

  datatype UpdateReply = Missing | CasLost | Updated(record: ExecutionRecord)

  class MemoryStore {
    var operations: map<string, Operation>
    var operationByKey: map<(string, string), string>
    var executions: map<string, ExecutionRecord>
    var executionOrder: seq<string>
    var executionByOperation: map<(string, string), string>
    var audit: seq<AuditRow>

    ghost function State(): StoreState
      reads this
    {
      StoreState(operations, operationByKey, executions, executionOrder, executionByOperation, audit)
    }

    ghost function Listing(tenantId: string): seq<ExecutionRecord>
      requires ValidStore(State())
      reads this
    {
      TenantRecords(executionOrder, executions, tenantId)
    }

    constructor ()
      ensures State() == StoreState(map[], map[], map[], [], map[], [])
      ensures ValidStore(State())
    {
      operations, operationByKey, executions := map[], map[], map[];
      executionOrder, executionByOperation, audit := [], map[], [];
    }

    /** Idempotent on (tenant, idempotency key): the second call returns the first operation. */
    method CreateOperation(tenantId: string, threadId: string, orderId: string, action: PendingAction,
                           idempotencyKey: string, freshId: string)
      returns (op: Operation)
      requires ValidStore(State()) && freshId !in operations
      modifies this
      ensures ValidStore(State())
      ensures op.operationId in operations && operations[op.operationId] == op
      ensures KeyOf(op) == (tenantId, idempotencyKey)
      ensures (tenantId, idempotencyKey) in old(operationByKey) ==> State() == old(State())
      ensures (tenantId, idempotencyKey) !in old(operationByKey) ==>
                && op == Operation(freshId, tenantId, threadId, orderId, action, idempotencyKey, OpPending, None)
                && State() == InsertOperation(old(State()), op)
                && operations == old(operations)[freshId := op] && executions == old(executions)
    {
      if (tenantId, idempotencyKey) in operationByKey {
        op := operations[operationByKey[(tenantId, idempotencyKey)]];
      } else {
        op := Operation(freshId, tenantId, threadId, orderId, action, idempotencyKey, OpPending, None);
        operations := operations[freshId := op];
        operationByKey := operationByKey[(tenantId, idempotencyKey) := freshId];
      }
    }

    method UpdateOperation(tenantId: string, operationId: string, status: OperationStatus, result: ExecutionStatus)
      returns (found: bool)
      modifies this`operations
      ensures found == (operationId in old(operations) && old(operations)[operationId].tenantId == tenantId)
      ensures operations == if found
                            then old(operations)[operationId :=
                                                   old(operations)[operationId].(status := status,
                                                                                 result := Some(result))]
                            else old(operations)
    {
      found := operationId in operations && operations[operationId].tenantId == tenantId;
      if found {
        operations := operations[operationId := operations[operationId].(status := status, result := Some(result))];
      }
    }

    method AppendAudit(tenantId: string, action: AuditAction, targetId: string)
      modifies this`audit
      ensures audit == old(audit) + [AuditRow(tenantId, action, targetId)]
    {
      audit := audit + [AuditRow(tenantId, action, targetId)];
    }

    /** Check-then-insert under the lock: at most one execution per (tenant, operation). */
    method CreateExecutionRecord(operation: Operation, mode: ExecutionMode, amount: Option<real>, now: real,
                                 freshId: string)
      returns (r: ExecutionRecord)
      requires ValidStore(State()) && freshId !in executions
      modifies this
      ensures ValidStore(State())
      ensures r.id.executionId in executions && executions[r.id.executionId] == r
      ensures AnchorOf(r) == (operation.tenantId, operation.operationId)
      ensures AnchorOf(r) in old(executionByOperation) ==> State() == old(State())
      ensures AnchorOf(r) !in old(executionByOperation) ==>
                && r == NewRecord(operation, mode, amount, now, freshId) && State() == InsertExecution(old(State()), r)
                && executions == old(executions)[freshId := r] && executionOrder == old(executionOrder) + [freshId]
                && operations == old(operations)
    {
      if (operation.tenantId, operation.operationId) in executionByOperation {
        r := executions[executionByOperation[(operation.tenantId, operation.operationId)]];
      } else {
        r := NewRecord(operation, mode, amount, now, freshId);
        executions := executions[freshId := r];
        executionOrder := executionOrder + [freshId];
        executionByOperation := executionByOperation[AnchorOf(r) := freshId];
        InsertKeepsValid(old(State()), r);
      }
    }

    /** One-shot right to submit: attempts 0 -> 1 on a pending record. None when the record is not the tenant's. */
    method ClaimExecutionSubmit(tenantId: string, executionId: string, now: real) returns (claimed: Option<bool>)
      modifies this`executions
      ensures claimed.None? <==> executionId !in old(executions) || old(executions)[executionId].id.tenantId != tenantId
      ensures claimed.Some? ==>
                var r := old(executions)[executionId];
                claimed.value == (r.status == PendingSubmit && r.attempts == 0)
                && executions == if claimed.value
                                 then old(executions)[executionId := Touch(r.(attempts := 1), now)]
                                 else old(executions)
      ensures claimed.None? ==> executions == old(executions)
    {
      if executionId !in executions || executions[executionId].id.tenantId != tenantId {
        return None;
      }
      var r := executions[executionId];
      if r.status != PendingSubmit || r.attempts != 0 {
        return Some(false);
      }
      executions := executions[executionId := Touch(r.(attempts := 1), now)];
      claimed := Some(true);
    }

    /** Writes `status` and the fields of `patch`; with an expected status, only if it is still current. */
    method UpdateExecutionRecord(tenantId: string, executionId: string, status: ExecutionStatus,
                                 expected: Option<ExecutionStatus>, patch: ExecutionRecord -> ExecutionRecord,
                                 now: real)
      returns (reply: UpdateReply)
      modifies this`executions
      ensures reply.Missing?
         <==> executionId !in old(executions) || old(executions)[executionId].id.tenantId != tenantId
      ensures reply.CasLost? <==> executionId in old(executions) && old(executions)[executionId].id.tenantId == tenantId
                                  && expected.Some? && old(executions)[executionId].status != expected.value
      ensures reply.Updated? ==> reply.record == Touch(patch(old(executions)[executionId]).(status := status), now)
                                 && executions == old(executions)[executionId := reply.record]
      ensures !reply.Updated? ==> executions == old(executions)
    {
      if executionId !in executions || executions[executionId].id.tenantId != tenantId {
        return Missing;
      }
      if expected.Some? && executions[executionId].status != expected.value {
        return CasLost;
      }
      var r := Touch(patch(executions[executionId]).(status := status), now);
      executions := executions[executionId := r];
      reply := Updated(r);
    }

    method GetExecutionByOperation(tenantId: string, operationId: string) returns (r: Option<ExecutionRecord>)
      requires ValidStore(State())
      ensures r == if (tenantId, operationId) in executionByOperation
                   then Some(executions[executionByOperation[(tenantId, operationId)]]) else None
    {
      r := if (tenantId, operationId) in executionByOperation
           then Some(executions[executionByOperation[(tenantId, operationId)]]) else None;
    }

    method ListExecutionRecords(tenantId: string) returns (rs: seq<ExecutionRecord>)
      requires ValidStore(State())
      ensures rs == TenantRecords(executionOrder, executions, tenantId)
    {
      rs := [];
      for i := 0 to |executionOrder|
        invariant rs == TenantRecords(executionOrder[..i], executions, tenantId)
      {
        assert executionOrder[..i + 1][..i] == executionOrder[..i];
        var r := executions[executionOrder[i]];
        if r.id.tenantId == tenantId {
          rs := rs + [r];
        }
      }
      assert executionOrder[..|executionOrder|] == executionOrder;
    }

    /** The record's fields, one after another, as the plan says. */
    static method ApplyToRecord(record: ExecutionRecord, plan: Plan, nonce: string, now: real)
      returns (r: ExecutionRecord)
      ensures r == Touch(WritePlan(record, plan, nonce, now), now)
    {
      r := record;
      if plan.bookNonce {
        r := r.(callbackNonce := Some(nonce));
      }
      if plan.nextStatus.Some? {
        r := r.(status := plan.nextStatus.value);
      }
      r := Touch(r, now);
      if plan.stampConfirmed {
        r := StampConfirmed(r, now);
      }
      if plan.receipt.Some? {
        r := r.(receipt := plan.receipt);
      }
    }

    method ApplyCallbackAtomic(tenantId: string, executionId: string, nonce: string, p: Payload, now: real)
      returns (outcome: CallbackOutcome)
      modifies this`executions, this`operations, this`audit
      ensures State() == CallbackState(old(State()), tenantId, executionId, nonce, p, now)
      ensures outcome == CallbackReply(old(State()), tenantId, executionId, nonce, p)
    {
      if executionId !in executions || executions[executionId].id.tenantId != tenantId {
        return CallbackNotFound;
      }
      var record := executions[executionId];
      var plan := MakePlan(record, nonce, p);
      ApplyPlan(tenantId, record, plan, executionId, nonce, now);
      outcome := OutcomeOf(plan);
    }

    /** The writes of a plan: the record, its operation, and an audit row. */
    method ApplyPlan(tenantId: string, record: ExecutionRecord, plan: Plan, executionId: string, nonce: string,
                     now: real)
      modifies this`executions, this`operations, this`audit
      ensures executions == old(executions)[executionId := Touch(WritePlan(record, plan, nonce, now), now)]
      ensures operations ==
              if plan.operationId in old(operations) && old(operations)[plan.operationId].tenantId == tenantId
              then old(operations)[plan.operationId := WriteOperation(old(operations)[plan.operationId], plan)]
              else old(operations)
      ensures audit ==
              if plan.nextStatus.Some? then old(audit) + [CallbackAudit(record, plan.reason)] else old(audit)
    {
      var r := ApplyToRecord(record, plan, nonce, now);
      executions := executions[executionId := r];
      if plan.operationStatus.Some? {
        if plan.operationId in operations && operations[plan.operationId].tenantId == tenantId {
          operations := operations[plan.operationId :=
            operations[plan.operationId].(status := plan.operationStatus.value, result := plan.operationResult)];
        }
      } else if plan.operationId in operations {
        assert operations == operations[plan.operationId := operations[plan.operationId]];
      }
      if plan.nextStatus.Some? {
        audit := audit + [CallbackAudit(record, plan.reason)];
      }
    }
  }

  function NewRecord(operation: Operation, mode: ExecutionMode, amount: Option<real>, now: real, id: string)
    : ExecutionRecord
  {
    ExecutionRecord(Identity(id, operation.tenantId, operation.operationId, operation.pendingAction, operation.orderId,
                             operation.idempotencyKey, mode, amount),
                    PendingSubmit, None, None, None, None, 0, Times(now, now, None, None))
  }

  lemma InsertKeepsValid(s: StoreState, r: ExecutionRecord)
    requires ValidStore(s) && r.id.executionId !in s.executions && AnchorOf(r) !in s.executionByOperation
    ensures ValidStore(InsertExecution(s, r))
  {
    var s' := InsertExecution(s, r);
    assert s'.executionOrder[|s.executionOrder|] == r.id.executionId;
    forall id | id in s'.executions
      ensures id in s'.executionOrder
    {
      if id != r.id.executionId {
        assert id in s.executionOrder;
      }
    }
  }

  /** Rewriting a record or an operation without touching its identity keeps every index valid. */
  lemma RewriteKeepsValid(s: StoreState, r: ExecutionRecord, op: Operation)
    requires ValidStore(s)
    requires r.id.executionId in s.executions && AnchorOf(s.executions[r.id.executionId]) == AnchorOf(r)
    requires op.operationId in s.operations && KeyOf(s.operations[op.operationId]) == KeyOf(op)
    ensures ValidStore(PutOperation(PutExecution(s, r), op))
  {
  }
}
