/** The SQL backends of the execution store: rows, keyed updates with a row count, and the callback transaction
    (src/infrastructure/sqlite_store.py, src/infrastructure/postgres_store.py). A transaction, or a statement run
    under the connection lock, is one atomic step. */
module SqlBackend {
  import opened Wrappers
  import opened ExecutionTypes
  import opened CallbackPlan
  import opened MemoryStore

  // ----- statements -----

  function Select<T>(rows: seq<T>, where: T -> bool): (row: Option<T>)
    ensures row.Some? ==> row.value in rows && where(row.value)
    ensures row.None? ==> forall r :: r in rows ==> !where(r)
  {
    if rows == [] then None
    else if where(rows[0]) then Some(rows[0])
    else Select(rows[1..], where)
  }

  /** UPDATE ... SET ... WHERE: the rows afterwards. */
  function AfterUpdate<T>(rows: seq<T>, where: T -> bool, put: T -> T): (out: seq<T>)
    ensures |out| == |rows|
    ensures forall i :: 0 <= i < |rows| ==> out[i] == if where(rows[i]) then put(rows[i]) else rows[i]
  {
    seq(|rows|, i requires 0 <= i < |rows| => if where(rows[i]) then put(rows[i]) else rows[i])
  }

  /** The row count of an update. */
  function Hits<T>(rows: seq<T>, where: T -> bool): nat {
    if rows == [] then 0 else (if where(rows[0]) then 1 else 0) + Hits(rows[1..], where)
  }

  // ----- tables and the state they stand for -----

  /** A table with a primary key holds exactly the entries of a map. */
  ghost predicate Holds<T(!new)>(rows: seq<T>, key: T -> string, m: map<string, T>) {
    && (forall i, j :: 0 <= i < j < |rows| ==> key(rows[i]) != key(rows[j]))
    && (forall i :: 0 <= i < |rows| ==> key(rows[i]) in m && m[key(rows[i])] == rows[i])
    && (forall k :: k in m ==> m[k] in rows && key(m[k]) == k)
  }

  const EXECUTION_ID := (r: ExecutionRecord) => r.id.executionId
  const OPERATION_ID := (op: Operation) => op.operationId

  datatype Tables = Tables(executions: seq<ExecutionRecord>, operations: seq<Operation>, audit: seq<AuditRow>)

  ghost predicate Represents(t: Tables, s: StoreState) {
    && Holds(t.executions, EXECUTION_ID, s.executions) && Holds(t.operations, OPERATION_ID, s.operations)
    && t.audit == s.audit
  }

  lemma {:induction false} HitsAtMostOne<T(!new)>(rows: seq<T>, key: T -> string, where: T -> bool, k: string)
    requires forall i, j :: 0 <= i < j < |rows| ==> key(rows[i]) != key(rows[j])
    requires forall r :: r in rows && where(r) ==> key(r) == k
    ensures Hits(rows, where) == if exists i :: 0 <= i < |rows| && where(rows[i]) then 1 else 0
  {
    if rows != [] {
      HitsAtMostOne(rows[1..], key, where, k);
      if where(rows[0]) {
        forall i | 0 <= i < |rows[1..]|
          ensures !where(rows[1..][i])
        {
          assert rows[i + 1] in rows;
        }
      } else if exists i :: 0 <= i < |rows| && where(rows[i]) {
        var i :| 0 <= i < |rows| && where(rows[i]);
        assert rows[1..][i - 1] == rows[i];
      }
    }
  }

  /** What an update that can only reach the entry `k` makes of the map. */
  function Rewritten<T>(m: map<string, T>, where: T -> bool, put: T -> T, k: string): map<string, T> {
    if k in m && where(m[k]) then m[k := put(m[k])] else m
  }

  /** An update that can only reach one key changes that entry and reports one row, or reports none and changes nothing.
      */
  lemma UpdateByKey<T(!new)>(rows: seq<T>, key: T -> string, m: map<string, T>, where: T -> bool, put: T -> T,
                             k: string)
    requires Holds(rows, key, m)
    requires forall r :: r in rows && where(r) ==> key(r) == k && key(put(r)) == k
    ensures Hits(rows, where) == if k in m && where(m[k]) then 1 else 0
    ensures Holds(AfterUpdate(rows, where, put), key, Rewritten(m, where, put, k))
  {
    HitsAtMostOne(rows, key, where, k);
    forall i | 0 <= i < |rows|
      ensures where(rows[i]) ==> k in m && rows[i] == m[k]
    {
      assert rows[i] in rows;
    }
    UpdateRows(rows, key, m, where, put, k);
  }

  lemma UpdateRows<T(!new)>(rows: seq<T>, key: T -> string, m: map<string, T>, where: T -> bool, put: T -> T, k: string)
    requires Holds(rows, key, m)
    requires forall i :: 0 <= i < |rows| ==> (where(rows[i]) ==> k in m && rows[i] == m[k])
    requires k in m && where(m[k]) ==> key(put(m[k])) == k
    ensures Holds(AfterUpdate(rows, where, put), key, Rewritten(m, where, put, k))
  {
    var out, m' := AfterUpdate(rows, where, put), Rewritten(m, where, put, k);
    assert forall i :: 0 <= i < |rows| ==> key(out[i]) == key(rows[i]);
    forall j | j in m'
      ensures m'[j] in out && key(m'[j]) == j
    {
      assert m[j] in rows;
      var i :| 0 <= i < |rows| && rows[i] == m[j];
      assert out[i] == m'[j];
    }
    forall i | 0 <= i < |out|
      ensures key(out[i]) in m' && m'[key(out[i])] == out[i]
    {
      assert key(rows[i]) in m && m[key(rows[i])] == rows[i];
    }
  }

  lemma InsertRow<T(!new)>(rows: seq<T>, key: T -> string, m: map<string, T>, r: T)
    requires Holds(rows, key, m) && key(r) !in m
    ensures Holds(rows + [r], key, m[key(r) := r])
  {
    assert (rows + [r])[|rows|] == r;
  }

  lemma SelectByKey<T(!new)>(rows: seq<T>, key: T -> string, m: map<string, T>, where: T -> bool, k: string)
    requires Holds(rows, key, m)
    requires forall r :: r in rows && where(r) ==> key(r) == k
    ensures Select(rows, where) == if k in m && where(m[k]) then Some(m[k]) else None
  {
  }

  // ----- what a callback transaction does to the state -----

  /** As the in-memory step, except that a plan that books nothing leaves `updated_at` alone. */
  function SqlCallbackState(s: StoreState, tenantId: string, executionId: string, nonce: string, p: Payload, now: real)
    : StoreState
  {
    if executionId !in s.executions || s.executions[executionId].id.tenantId != tenantId then s
    else
      var r := s.executions[executionId];
      var plan := MakePlan(r, nonce, p);
      var s' := CallbackState(s, tenantId, executionId, nonce, p, now);
      if plan.bookNonce then s' else s'.(executions := s.executions)
  }

  lemma CallbackParts(s: StoreState, tenantId: string, executionId: string, nonce: string, p: Payload, now: real)
    requires executionId in s.executions && s.executions[executionId].id.tenantId == tenantId
    ensures var r := s.executions[executionId];
            var plan := MakePlan(r, nonce, p);
            var s' := SqlCallbackState(s, tenantId, executionId, nonce, p, now);
            && s'.executions ==
               (if plan.bookNonce then s.executions[executionId := Touch(WritePlan(r, plan, nonce, now), now)]
                else s.executions)
            && s'.operations ==
               (if plan.operationId in s.operations && s.operations[plan.operationId].tenantId == tenantId
                then s.operations[plan.operationId := WriteOperation(s.operations[plan.operationId], plan)]
                else s.operations)
            && s'.audit == s.audit + (if plan.nextStatus.Some? then [CallbackAudit(r, plan.reason)] else [])
  {
  }

  class SqlStore {
    var executions: seq<ExecutionRecord>
    var operations: seq<Operation>
    var audit: seq<AuditRow>

    ghost function State(): Tables
      reads this
    {
      Tables(executions, operations, audit)
    }

    constructor ()
      ensures Represents(State(), StoreState(map[], map[], map[], [], map[], []))
    {
      executions, operations, audit := [], [], [];
    }

    /** The callback transaction. The compare-and-set on the expected, non-terminal status cannot miss: the row
        was read in the same transaction, so the rollback branch is dead. */
    method ApplyCallbackAtomic(tenantId: string, executionId: string, nonce: string, p: Payload, now: real,
                               ghost s: StoreState)
      returns (outcome: CallbackOutcome)
      requires Represents(State(), s)
      modifies this
      ensures Represents(State(), SqlCallbackState(s, tenantId, executionId, nonce, p, now))
      ensures outcome == CallbackReply(s, tenantId, executionId, nonce, p)
    {
      var own := (r: ExecutionRecord) => r.id.executionId == executionId && r.id.tenantId == tenantId;
      SelectByKey(executions, EXECUTION_ID, s.executions, own, executionId);
      var row := Select(executions, own);
      if row.None? {
        return CallbackNotFound;
      }
      var record := row.value;
      var plan := MakePlan(record, nonce, p);
      PlanFits(record, nonce, p, now);
      CallbackParts(s, tenantId, executionId, nonce, p, now);
      var rowcount := MoveRecord(tenantId, executionId, nonce, now, record, plan, s);
      if rowcount == 0 {
        assert false;
        return CallbackOutcome(false, TerminalLocked, plan.status, None, plan.claimedNonce);
      }
      MarkOperation(tenantId, plan, s);
      if plan.nextStatus.Some? {
        audit := audit + [CallbackAudit(record, plan.reason)];
      }
      outcome := OutcomeOf(plan);
    }

    /** An UPDATE on executions whose WHERE clause names one primary key. */
    method UpdateExecutions(k: string, where: ExecutionRecord -> bool, put: ExecutionRecord -> ExecutionRecord,
                            ghost m: map<string, ExecutionRecord>)
      returns (rowcount: nat)
      requires Holds(executions, EXECUTION_ID, m)
      requires forall r :: where(r) ==> r.id.executionId == k && put(r).id == r.id
      modifies this`executions
      ensures rowcount == if k in m && where(m[k]) then 1 else 0
      ensures Holds(executions, EXECUTION_ID, Rewritten(m, where, put, k))
    {
      UpdateByKey(executions, EXECUTION_ID, m, where, put, k);
      rowcount := Hits(executions, where);
      executions := AfterUpdate(executions, where, put);
    }

    /** The execution's part of the transaction: a compare-and-set for a move, a plain update for a nonce, else nothing.
        */
    method MoveRecord(tenantId: string, executionId: string, nonce: string, now: real, record: ExecutionRecord,
                      plan: Plan, ghost s: StoreState)
      returns (rowcount: nat)
      requires Holds(executions, EXECUTION_ID, s.executions)
      requires executionId in s.executions && s.executions[executionId] == record && record.id.tenantId == tenantId
      requires record.id.executionId == executionId
      requires plan.expectedStatus == record.status
      requires plan.nextStatus.Some? ==> !IsTerminal(record.status) && plan.bookNonce
      requires plan.nextStatus.None? ==> WritePlan(record, plan, nonce, now) == record.(
                 callbackNonce := if plan.bookNonce then Some(nonce) else record.callbackNonce)
      modifies this`executions
      ensures rowcount == 1
      ensures Holds(executions, EXECUTION_ID,
                    if plan.bookNonce then s.executions[executionId := Touch(WritePlan(record, plan, nonce, now), now)]
                    else s.executions)
    {
      rowcount := 1;
      if plan.nextStatus.Some? {
        rowcount := UpdateExecutions(
          executionId,
          (r: ExecutionRecord) => r.id.executionId == executionId && r.id.tenantId == tenantId
                                  && r.status == plan.expectedStatus && !IsTerminal(r.status),
          (r: ExecutionRecord) => Touch(WritePlan(r, plan, nonce, now), now), s.executions);
      } else if plan.bookNonce {
        rowcount := UpdateExecutions(
          executionId, (r: ExecutionRecord) => r.id.executionId == executionId && r.id.tenantId == tenantId,
          (r: ExecutionRecord) => Touch(r.(callbackNonce := Some(nonce)), now), s.executions);
      }
    }

    method MarkOperation(tenantId: string, plan: Plan, ghost s: StoreState)
      requires Holds(operations, OPERATION_ID, s.operations)
      modifies this`operations
      ensures Holds(operations, OPERATION_ID,
                    if plan.operationId in s.operations && s.operations[plan.operationId].tenantId == tenantId
                    then s.operations[plan.operationId := WriteOperation(s.operations[plan.operationId], plan)]
                    else s.operations)
    {
      if plan.operationStatus.Some? {
        var own := (op: Operation) => op.operationId == plan.operationId && op.tenantId == tenantId;
        var put := (op: Operation) => WriteOperation(op, plan);
        UpdateByKey(operations, OPERATION_ID, s.operations, own, put, plan.operationId);
        operations := AfterUpdate(operations, own, put);
      } else if plan.operationId in s.operations {
        assert s.operations == s.operations[plan.operationId := s.operations[plan.operationId]];
      }
    }

    /** The one-shot claim in SQLite: one conditional update, won when it reports one row. A record that is not
        the tenant's is reported as lost; the other two backends report it as missing. */
    method ClaimExecutionSubmit(tenantId: string, executionId: string, now: real, ghost s: StoreState)
      returns (claimed: bool)
      requires Represents(State(), s)
      modifies this`executions
      ensures claimed == Claimable(s, tenantId, executionId)
      ensures Represents(State(), if claimed then s.(executions := s.executions[executionId :=
                                                       Touch(s.executions[executionId].(attempts := 1), now)])
                                  else s)
    {
      var rowcount := UpdateExecutions(
        executionId,
        (r: ExecutionRecord) => r.id.executionId == executionId && r.id.tenantId == tenantId
                                && r.status == PendingSubmit && r.attempts == 0,
        (r: ExecutionRecord) => Touch(r.(attempts := 1), now), s.executions);
      claimed := rowcount == 1;
    }

    /** Status and fields written by key, with the expected status in the WHERE clause when there is one. */
    method UpdateExecutionRecord(tenantId: string, executionId: string, status: ExecutionStatus,
                                 expected: Option<ExecutionStatus>, patch: ExecutionRecord -> ExecutionRecord,
                                 now: real, ghost s: StoreState)
      returns (reply: UpdateReply)
      requires Represents(State(), s)
      requires forall r :: patch(r).id == r.id
      modifies this`executions
      ensures var own := executionId in s.executions && s.executions[executionId].id.tenantId == tenantId;
              && (reply.Updated? <==> own && (expected.None? || s.executions[executionId].status == expected.value))
              && (reply.Missing? <==> !own && expected.None?)
      ensures reply.Updated? ==>
                && reply.record == Touch(patch(s.executions[executionId]).(status := status), now)
                && Represents(State(), s.(executions := s.executions[executionId := reply.record]))
      ensures !reply.Updated? ==> Represents(State(), s)
    {
      var put := (r: ExecutionRecord) => Touch(patch(r).(status := status), now);
      var rowcount := UpdateExecutions(
        executionId,
        (r: ExecutionRecord) => r.id.executionId == executionId && r.id.tenantId == tenantId
                                && (expected.None? || r.status == expected.value),
        put, s.executions);
      if rowcount == 0 {
        return if expected.Some? then CasLost else Missing;
      }
      var record := ReadBack(tenantId, executionId, s.executions[executionId := put(s.executions[executionId])]);
      reply := Updated(record);
    }

    method ReadBack(tenantId: string, executionId: string, ghost m: map<string, ExecutionRecord>)
      returns (r: ExecutionRecord)
      requires Holds(executions, EXECUTION_ID, m) && executionId in m && m[executionId].id.tenantId == tenantId
      ensures r == m[executionId]
    {
      var own := (r: ExecutionRecord) => r.id.executionId == executionId && r.id.tenantId == tenantId;
      SelectByKey(executions, EXECUTION_ID, m, own, executionId);
      r := Select(executions, own).value;
    }

    /** PostgreSQL: INSERT ... ON CONFLICT (tenant_id, operation_id) DO NOTHING, then read back. */
    method CreateExecutionRecord(operation: Operation, mode: ExecutionMode, amount: Option<real>, now: real,
                                 freshId: string, ghost s: StoreState)
      returns (r: ExecutionRecord)
      requires Represents(State(), s) && ValidStore(s) && freshId !in s.executions
      modifies this`executions
      ensures var k := (operation.tenantId, operation.operationId);
              var added := NewRecord(operation, mode, amount, now, freshId);
              if k in s.executionByOperation then
                r == s.executions[s.executionByOperation[k]] && Represents(State(), s)
              else
                r == added && Represents(State(), InsertExecution(s, added))
    {
      var same := (q: ExecutionRecord) =>
        q.id.tenantId == operation.tenantId && q.id.operationId == operation.operationId;
      var conflict := Select(executions, same);
      ConflictByAnchor(executions, s, same, (operation.tenantId, operation.operationId));
      if conflict.Some? {
        return conflict.value;
      }
      r := NewRecord(operation, mode, amount, now, freshId);
      InsertRow(executions, EXECUTION_ID, s.executions, r);
      executions := executions + [r];
    }
  }

  /** The uniqueness constraint on (tenant, operation) finds what the in-memory index finds. */
  lemma ConflictByAnchor(rows: seq<ExecutionRecord>, s: StoreState, same: ExecutionRecord -> bool, k: (string, string))
    requires Holds(rows, EXECUTION_ID, s.executions) && ValidStore(s)
    requires forall q :: same(q) <==> AnchorOf(q) == k
    ensures Select(rows, same) ==
            if k in s.executionByOperation then Some(s.executions[s.executionByOperation[k]]) else None
  {
    var found := Select(rows, same);
    if k in s.executionByOperation {
      var r := s.executions[s.executionByOperation[k]];
      assert r in rows && same(r);
    }
    if found.Some? {
      var i :| 0 <= i < |rows| && rows[i] == found.value;
      assert EXECUTION_ID(rows[i]) in s.executions;
    }
  }

  /** A move is planned on the status that was read, never on a terminal one; a plan that moves nothing writes at
      most the nonce. */
  lemma PlanFits(r: ExecutionRecord, nonce: string, p: Payload, now: real)
    ensures var plan := MakePlan(r, nonce, p);
            && plan.expectedStatus == r.status
            && (plan.nextStatus.Some? ==> !IsTerminal(r.status) && plan.bookNonce)
            && (plan.nextStatus.None? ==> WritePlan(r, plan, nonce, now)
                                          == r.(callbackNonce :=
                                                  if plan.bookNonce then Some(nonce) else r.callbackNonce))
  {
  }

  predicate Claimable(s: StoreState, tenantId: string, executionId: string) {
    && executionId in s.executions && s.executions[executionId].id.tenantId == tenantId
    && s.executions[executionId].status == PendingSubmit && s.executions[executionId].attempts == 0
  }

  // ----- the backends agree -----

  /** The same rows, `updated_at` aside. */
  ghost predicate Alike(s: StoreState, t: StoreState) {
    && s.executions.Keys == t.executions.Keys && s.operations == t.operations && s.audit == t.audit
    && s.operationByKey == t.operationByKey && s.executionByOperation == t.executionByOperation
    && s.executionOrder == t.executionOrder
    && forall id :: id in s.executions ==> Touch(s.executions[id], 0.0) == Touch(t.executions[id], 0.0)
  }

  /** On one and the same state the backends answer alike and leave states alike; the states are equal exactly
      when the callback booked its nonce, or was not found, or came at the instant of the last update. */
  lemma BackendsDifferOnlyInTouch(s: StoreState, tenantId: string, executionId: string, nonce: string, p: Payload,
                                  now: real)
    requires forall id :: id in s.executions ==> s.executions[id].id.executionId == id
    ensures var m, q := CallbackState(s, tenantId, executionId, nonce, p, now),
                        SqlCallbackState(s, tenantId, executionId, nonce, p, now);
            Alike(m, q)
            && (m == q <==> executionId !in s.executions || s.executions[executionId].id.tenantId != tenantId
                            || MakePlan(s.executions[executionId], nonce, p).bookNonce
                            || s.executions[executionId].times.updatedAt == now)
  {
    if executionId in s.executions && s.executions[executionId].id.tenantId == tenantId {
      var r := s.executions[executionId];
      PlannedMoveIsLegal(r, nonce, p);
      var m, q := CallbackState(s, tenantId, executionId, nonce, p, now),
                  SqlCallbackState(s, tenantId, executionId, nonce, p, now);
      if !MakePlan(r, nonce, p).bookNonce {
        assert m.executions[executionId] == Touch(r, now) && q.executions[executionId] == r;
        if r.times.updatedAt == now {
          assert Touch(r, now) == r;
          assert m.executions == q.executions;
        }
      }
    }
  }

  datatype Delivery = Delivery(tenantId: string, executionId: string, nonce: string, payload: Payload, now: real)

  function MemoryAnswers(s: StoreState, ds: seq<Delivery>): seq<CallbackOutcome>
    decreases |ds|
  {
    if ds == [] then []
    else
      var d := ds[0];
      [CallbackReply(s, d.tenantId, d.executionId, d.nonce, d.payload)]
      + MemoryAnswers(CallbackState(s, d.tenantId, d.executionId, d.nonce, d.payload, d.now), ds[1..])
  }

  function SqlAnswers(s: StoreState, ds: seq<Delivery>): seq<CallbackOutcome>
    decreases |ds|
  {
    if ds == [] then []
    else
      var d := ds[0];
      [CallbackReply(s, d.tenantId, d.executionId, d.nonce, d.payload)]
      + SqlAnswers(SqlCallbackState(s, d.tenantId, d.executionId, d.nonce, d.payload, d.now), ds[1..])
  }

  lemma StepKeepsAlike(s: StoreState, t: StoreState, d: Delivery)
    requires Alike(s, t)
    ensures CallbackReply(s, d.tenantId, d.executionId, d.nonce, d.payload)
         == CallbackReply(t, d.tenantId, d.executionId, d.nonce, d.payload)
    ensures Alike(CallbackState(s, d.tenantId, d.executionId, d.nonce, d.payload, d.now),
                  SqlCallbackState(t, d.tenantId, d.executionId, d.nonce, d.payload, d.now))
  {
    if d.executionId in s.executions {
      var r, q := s.executions[d.executionId], t.executions[d.executionId];
      PlanIgnoresTimes(r, q, d.nonce, d.payload);
      RecordsStayAlike(r, q, d);
      OperationsStayAlike(s, t, d);
    }
  }

  /** Operations and audit rows come out equal. */
  lemma OperationsStayAlike(s: StoreState, t: StoreState, d: Delivery)
    requires Alike(s, t) && d.executionId in s.executions
    requires MakePlan(s.executions[d.executionId], d.nonce, d.payload)
          == MakePlan(t.executions[d.executionId], d.nonce, d.payload)
    ensures CallbackState(s, d.tenantId, d.executionId, d.nonce, d.payload, d.now).operations
         == SqlCallbackState(t, d.tenantId, d.executionId, d.nonce, d.payload, d.now).operations
    ensures CallbackState(s, d.tenantId, d.executionId, d.nonce, d.payload, d.now).audit
         == SqlCallbackState(t, d.tenantId, d.executionId, d.nonce, d.payload, d.now).audit
  {
  }

  /** What the memory step and the SQL step make of two alike records is alike. */
  lemma RecordsStayAlike(r: ExecutionRecord, q: ExecutionRecord, d: Delivery)
    requires Touch(r, 0.0) == Touch(q, 0.0)
    ensures var plan := MakePlan(q, d.nonce, d.payload);
            var after := if plan.bookNonce then Touch(WritePlan(q, plan, d.nonce, d.now), d.now) else q;
            MakePlan(r, d.nonce, d.payload) == plan
            && Touch(Touch(WritePlan(r, plan, d.nonce, d.now), d.now), 0.0) == Touch(after, 0.0)
  {
    PlanIgnoresTimes(r, q, d.nonce, d.payload);
    PlannedMoveIsLegal(q, d.nonce, d.payload);
  }

  lemma PlanIgnoresTimes(r: ExecutionRecord, q: ExecutionRecord, nonce: string, p: Payload)
    requires Touch(r, 0.0) == Touch(q, 0.0)
    ensures MakePlan(r, nonce, p) == MakePlan(q, nonce, p)
  {
  }

  /** Any sequence of callbacks, to any records and with any clocks, is answered the same by all three backends. */
  lemma {:induction false} BackendsAnswerAlike(s: StoreState, t: StoreState, ds: seq<Delivery>)
    requires Alike(s, t)
    ensures MemoryAnswers(s, ds) == SqlAnswers(t, ds)
    decreases |ds|
  {
    if ds != [] {
      var d := ds[0];
      StepKeepsAlike(s, t, d);
      BackendsAnswerAlike(CallbackState(s, d.tenantId, d.executionId, d.nonce, d.payload, d.now),
                          SqlCallbackState(t, d.tenantId, d.executionId, d.nonce, d.payload, d.now), ds[1..]);
    }
  }
}
