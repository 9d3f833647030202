/** Whole runs of the engine: any completed calls in any order, from the empty store and ledger
    (src/execution/engine.py). Each step is what one engine method is proved to do. */
module EngineRuns {
  import opened Wrappers
  import opened ExecutionTypes
  import opened CallbackPlan
  import opened MemoryStore
  import opened Gateway
  import opened ExecutionEffects
  import opened EngineSpec
  import opened Listings
  import opened ReconcileSweep

  /** A completed call, its inputs and its result. */
  datatype Call =
    | Opens(op: Operation)
    | Executes(operation: Operation, amount: Result<Option<real>>, mode: ExecutionMode, freshId: string,
               submit: SubmitEnv, outcome: Result<ExecutionOutcome>)
    | CallsBack(signatureValid: bool, body: Option<CallbackBody>, fault: Fault, result: CallbackResult)
    | Reconciles(tenantId: string, targets: seq<ExecutionRecord>, env: string -> ReconcileFaults,
                 tally: ReconciliationResult)

  datatype Moment = Moment(store: StoreState, ledger: Ledger)

  const BEGINNING := Moment(StoreState(map[], map[], map[], [], map[], []), Ledger(map[], map[]))

  /** The call takes the first moment to the second. */
  ghost predicate Does(c: Config, a: Moment, call: Call, b: Moment)
    requires Linked(a.store)
  {
    match call
    case Opens(op) =>
      && op.operationId !in a.store.operations && KeyOf(op) !in a.store.operationByKey
      && b == Moment(InsertOperation(a.store, op), a.ledger)
    case Executes(op, amount, mode, freshId, submit, outcome) =>
      && op.operationId in a.store.operations && SameOperation(a.store.operations[op.operationId], op)
      && freshId !in a.store.executions && FreshTxnId(a.ledger, submit.freshTxnId)
      && ExecuteSpec(c, op, amount, mode, freshId, submit, a.store, a.ledger, b.store, b.ledger, outcome)
    case CallsBack(signatureValid, body, fault, result) =>
      CallbackSpec(c, signatureValid, body, fault, a.store, a.ledger, b.store, b.ledger, result)
    case Reconciles(tenantId, targets, env, tally) =>
      SweepDone(c, a.store, a.ledger, tenantId, targets, env, b.store, b.ledger, tally)
  }

  lemma OpeningKeepsOrder(hasProvider: bool, s: StoreState, l: Ledger, op: Operation)
    requires Consistent(hasProvider, s, l) && op.operationId !in s.operations && KeyOf(op) !in s.operationByKey
    ensures Consistent(hasProvider, InsertOperation(s, op), l)
  {
    OpeningKeepsLinked(s, op);
    OpeningKeepsRows(s, l, op);
    forall id: string
      ensures Rests(hasProvider, InsertOperation(s, op), l, id)
    {
      assert Rests(hasProvider, s, l, id);
      OpeningKeepsRest(hasProvider, s, l, op, id);
    }
  }

  lemma OpeningKeepsLinked(s: StoreState, op: Operation)
    requires Linked(s) && op.operationId !in s.operations && KeyOf(op) !in s.operationByKey
    ensures Linked(InsertOperation(s, op))
  {
  }

  lemma OpeningKeepsRows(s: StoreState, l: Ledger, op: Operation)
    requires RowsOwned(s, l) && KeyOf(op) !in s.operationByKey
    ensures RowsOwned(InsertOperation(s, op), l)
  {
    var s' := InsertOperation(s, op);
    forall k
      ensures TxnOwned(s', l, k)
    {
      assert TxnOwned(s, l, k);
    }
    forall k
      ensures ReversalOwned(s', l, k)
    {
      assert ReversalOwned(s, l, k);
    }
  }

  lemma OpeningKeepsRest(hasProvider: bool, s: StoreState, l: Ledger, op: Operation, id: string)
    requires Linked(s) && Rests(hasProvider, s, l, id) && op.operationId !in s.operations
    ensures Rests(hasProvider, InsertOperation(s, op), l, id)
  {
  }

  lemma CallKeepsOrder(c: Config, a: Moment, call: Call, b: Moment)
    requires Consistent(c.hasProvider, a.store, a.ledger) && Does(c, a, call, b)
    ensures Consistent(c.hasProvider, b.store, b.ledger)
  {
    match call {
      case Opens(op) => OpeningKeepsOrder(c.hasProvider, a.store, a.ledger, op);
      case Executes(op, amount, mode, freshId, submit, outcome) =>
        ExecuteKeepsOrder(c, op, amount, mode, freshId, submit, a.store, a.ledger, b.store, b.ledger, outcome);
      case CallsBack(signatureValid, body, fault, result) =>
        CallbackKeepsOrder(c, signatureValid, body, fault, a.store, a.ledger, b.store, b.ledger, result);
      case Reconciles(tenantId, targets, env, tally) =>
        SweptKeepsOrder(c, a.store, a.ledger, targets, env, b.store, b.ledger, tally.details);
    }
  }

  // ----- what a call does to one record -----

  /** One legal move, or two through FAILED_DISPATCHED. */
  predicate LegalPath(x: ExecutionStatus, y: ExecutionStatus) {
    CanTransition(x, y) || (CanTransition(x, FailedDispatched) && CanTransition(FailedDispatched, y))
  }

  /** The record moved along the table, or only its clock fields did. */
  predicate Advances(r: ExecutionRecord, q: ExecutionRecord) {
    && q.id == r.id
    && (LegalPath(r.status, q.status)
        || (q.status == r.status && (IsTerminal(r.status) ==> Timeless(q) == Timeless(r))))
  }

  ghost predicate RecordAdvances(s: StoreState, s': StoreState, id: string) {
    id in s.executions ==> id in s'.executions && Advances(s.executions[id], s'.executions[id])
  }

  lemma CallbackAdvances(c: Config, b: CallbackBody, fault: Fault, s: StoreState, l: Ledger, s': StoreState, l': Ledger,
                         result: CallbackResult)
    requires b.executionId in s.executions && s.executions[b.executionId].id.executionId == b.executionId
    requires s.executions[b.executionId].id.operationId in s.operations
    requires LocatedCallback(c, b, fault, s, l, s', l', result)
    ensures b.executionId in s'.executions && Advances(s.executions[b.executionId], s'.executions[b.executionId])
    ensures forall id :: id in s.executions && id != b.executionId ==>
              id in s'.executions && s'.executions[id] == s.executions[id]
  {
    CallbackMoves(c, s.executions[b.executionId], b, l, fault, s'.executions[b.executionId]);
  }

  lemma CallbackMoves(c: Config, r: ExecutionRecord, b: CallbackBody, l: Ledger, fault: Fault, q: ExecutionRecord)
    requires var plan := MakePlan(r, b.nonce, b.payload);
             var w := WritePlan(r, plan, b.nonce, 0.0);
             q.id == r.id
             && Timeless(q) ==
                Timeless(if plan.reason == DispatchFailed then SettleEffect(c, w, l, fault).record else w)
    ensures Advances(r, q)
  {
    var plan := MakePlan(r, b.nonce, b.payload);
    PlannedMoveIsLegal(r, b.nonce, b.payload);
    if plan.reason == DispatchFailed {
      SettleCloses(c, WritePlan(r, plan, b.nonce, 0.0), l, fault);
    }
  }

  lemma SweepAdvances(c: Config, s: StoreState, l: Ledger, targets: seq<ExecutionRecord>,
                      env: string -> ReconcileFaults,
                      s': StoreState, l': Ledger, details: seq<(string, Verdict)>, id: string)
    requires TargetsOf(s, targets) && Swept(s, l, targets, EffectsOf(c, targets, l, env), s', l', details)
    ensures RecordAdvances(s, s', id)
  {
    if id in s.executions && id in Ids(targets) {
      var i :| 0 <= i < |targets| && targets[i].id.executionId == id;
      assert SweptRecord(targets[i], EffectsOf(c, targets, l, env)[i], s, s', l', details[i]);
      ReconcileCloses(c, targets[i], l, env(id));
    }
  }

  lemma CallbackCallAdvances(c: Config, signatureValid: bool, body: Option<CallbackBody>, fault: Fault,
                             s: StoreState, l: Ledger, s': StoreState, l': Ledger, result: CallbackResult, id: string)
    requires Linked(s) && CallbackSpec(c, signatureValid, body, fault, s, l, s', l', result)
    ensures RecordAdvances(s, s', id)
  {
    if s' != s {
      var b := body.value;
      assert LocatedCallback(c, b, fault, s, l, s', l', result);
      CallbackAdvances(c, b, fault, s, l, s', l', result);
      assert id != b.executionId && id in s.executions ==> Advances(s.executions[id], s'.executions[id]);
    }
  }

  /** `execute` touches no execution that was there before. */
  lemma ExecuteAdvances(c: Config, op: Operation, amount: Result<Option<real>>, m: ExecutionMode, freshId: string,
                        env: SubmitEnv, s: StoreState, l: Ledger, s': StoreState, l': Ledger,
                        result: Result<ExecutionOutcome>, id: string)
    requires ValidStore(s) && op.operationId in s.operations && freshId !in s.executions
    requires ExecuteSpec(c, op, amount, m, freshId, env, s, l, s', l', result)
    ensures id in s.executions ==> id in s'.executions && s'.executions[id] == s.executions[id]
  {
  }

  lemma CallAdvances(c: Config, a: Moment, call: Call, b: Moment, id: string)
    requires Linked(a.store) && Does(c, a, call, b)
    ensures RecordAdvances(a.store, b.store, id)
  {
    match call {
      case Opens(op) =>
      case Executes(op, amount, mode, freshId, submit, outcome) =>
        ExecuteAdvances(c, op, amount, mode, freshId, submit, a.store, a.ledger, b.store, b.ledger, outcome, id);
      case CallsBack(signatureValid, body, fault, result) =>
        CallbackCallAdvances(c, signatureValid, body, fault, a.store, a.ledger, b.store, b.ledger, result, id);
      case Reconciles(tenantId, targets, env, tally) =>
        SweepAdvances(c, a.store, a.ledger, targets, env, b.store, b.ledger, tally.details, id);
    }
  }

  // ----- runs -----

  /** A run: moments in order from the beginning, each reached from the one before by a call. */
  ghost predicate Run(c: Config, ms: seq<Moment>, calls: seq<Call>) {
    && |ms| == |calls| + 1 && ms[0] == BEGINNING
    && forall i :: 0 <= i < |calls| ==> Leads(c, ms[i], calls[i], ms[i + 1])
  }

  ghost predicate Leads(c: Config, a: Moment, call: Call, b: Moment) {
    Linked(a.store) && Does(c, a, call, b)
  }

  ghost predicate InOrder(c: Config, m: Moment) {
    Consistent(c.hasProvider, m.store, m.ledger)
  }

  lemma BeginsInOrder(c: Config)
    ensures InOrder(c, BEGINNING)
  {
    StartsConsistent(c.hasProvider);
  }

  lemma LeadsInOrder(c: Config, a: Moment, call: Call, b: Moment)
    requires InOrder(c, a) && Leads(c, a, call, b)
    ensures InOrder(c, b)
  {
    CallKeepsOrder(c, a, call, b);
  }

  lemma {:induction false} RunIsInOrder(c: Config, ms: seq<Moment>, calls: seq<Call>)
    requires Run(c, ms, calls)
    ensures InOrder(c, ms[|calls|])
  {
    if calls == [] {
      BeginsInOrder(c);
    } else {
      var n := |calls| - 1;
      RunIsInOrder(c, ms[..n + 1], calls[..n]);
      LeadsInOrder(c, ms[n], calls[n], ms[n + 1]);
    }
  }

  /** At the end of any run with a provider: every record rests in one of six statuses, fixes the status of its
      operation, and its money, the record's amount each time, has moved at most once in each direction and never both
      ways for good. */
  lemma EveryRunConserves(c: Config, ms: seq<Moment>, calls: seq<Call>, id: string, e: string)
    requires c.hasProvider && Run(c, ms, calls) && id in ms[|calls|].store.executions
    ensures var s, l := ms[|calls|].store, ms[|calls|].ledger;
            var r := s.executions[id];
            && r.status in {Submitted, FailedUncertain, Confirmed, Compensated, CompensationFailed, Mismatched}
            && r.id.operationId in s.operations
            && s.operations[r.id.operationId].result == Some(r.status)
            && s.operations[r.id.operationId].status
               == (if r.status in {Mismatched, CompensationFailed} then OpHandoff else OpExecuted)
            && (r.id.mode == Shadow ==> r.status == Confirmed && (r.id.tenantId, r.id.idempotencyKey) !in l.txns)
            && (r.status == Submitted ==> r.attempts == 1 && r.externalTxnId.Some? && TxnKey(r) in l.txns)
            && (r.status == FailedUncertain ==> r.externalTxnId.None?)
            && (r.status == Compensated ==> ReversalKey(r) in l.reversals)
            && ((r.id.tenantId, r.id.idempotencyKey) in l.txns ==>
                  l.txns[(r.id.tenantId, r.id.idempotencyKey)].amount
                  == if r.id.amount.Some? then r.id.amount.value else 0.0)
            && ((r.id.tenantId, r.id.idempotencyKey, e) in l.reversals ==>
                  && e == id && r.status in {Compensated, CompensationFailed}
                  && l.reversals[(r.id.tenantId, r.id.idempotencyKey, e)]
                     == if r.id.amount.Some? then r.id.amount.value else 0.0)
  {
    RunIsInOrder(c, ms, calls);
    var m := ms[|calls|];
    RestsAt(true, m.store, m.ledger, id);
    MoneyMovesOnce(m.store, m.ledger, id, e);
  }

  /** Over any run a record only ever moves along the table, and a terminal record is frozen: nothing but its clock
      fields changes again. */
  lemma {:induction false} TerminalIsForever(c: Config, ms: seq<Moment>, calls: seq<Call>, i: nat, id: string)
    requires Run(c, ms, calls) && i <= |calls| && id in ms[i].store.executions
    ensures id in ms[|calls|].store.executions
    ensures var r, q := ms[i].store.executions[id], ms[|calls|].store.executions[id];
            && q.id == r.id && Rank(q.status) <= Rank(r.status)
            && (IsTerminal(r.status) ==> Timeless(q) == Timeless(r))
  {
    if i < |calls| {
      var n := |calls| - 1;
      TerminalIsForever(c, ms[..n + 1], calls[..n], i, id);
      LeadsOn(c, ms[n], calls[n], ms[n + 1], id);
      FurtherOn(ms[i].store.executions[id], ms[n].store.executions[id], ms[n + 1].store.executions[id]);
    }
  }

  lemma LeadsOn(c: Config, a: Moment, call: Call, b: Moment, id: string)
    requires Leads(c, a, call, b) && id in a.store.executions
    ensures id in b.store.executions && Advances(a.store.executions[id], b.store.executions[id])
  {
    CallAdvances(c, a, call, b, id);
  }

  lemma FurtherOn(r: ExecutionRecord, q: ExecutionRecord, t: ExecutionRecord)
    requires q.id == r.id && Rank(q.status) <= Rank(r.status) && (IsTerminal(r.status) ==> Timeless(q) == Timeless(r))
    requires Advances(q, t)
    ensures t.id == r.id && Rank(t.status) <= Rank(r.status) && (IsTerminal(r.status) ==> Timeless(t) == Timeless(r))
  {
  }
}
