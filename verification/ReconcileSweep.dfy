/** One reconciliation sweep: which records it takes, what it makes of each, and what it leaves alone
    (src/execution/engine.py `reconcile`). */
module ReconcileSweep {
  import opened ExecutionTypes
  import opened MemoryStore
  import opened Gateway
  import opened ExecutionEffects
  import opened EngineSpec
  import opened Listings

  /** The open records of a tenant: what is left to reconcile. */
  ghost function Open(s: StoreState, tenantId: string): set<string> {
    set id | id in s.executions && s.executions[id].id.tenantId == tenantId
             && s.executions[id].status in {Submitted, FailedUncertain, Reconciling, FailedDispatched}
  }

  datatype ReconciliationResult = ReconciliationResult(
    scanned: nat, reconciled: nat, misMatched: nat, humanHandoff: nat, details: seq<(string, Verdict)>)

  function CountOf(details: seq<(string, Verdict)>, v: Verdict): nat {
    if details == [] then 0
    else CountOf(details[..|details| - 1], v) + if details[|details| - 1].1 == v then 1 else 0
  }

  /** The counters are the counts of the details, and add up to the number scanned. */
  predicate Tallied(t: ReconciliationResult) {
    && t.reconciled == CountOf(t.details, SettledConfirmed)
    && t.misMatched == CountOf(t.details, SettledMismatch)
    && t.humanHandoff == CountOf(t.details, SettledHandoff)
    && t.scanned == |t.details| == t.reconciled + t.misMatched + t.humanHandoff
  }

  /** The record came out of the sweep as its effect says, with its operation and its verdict. */
  ghost predicate SweptRecord(r: ExecutionRecord, e: Effect, s: StoreState, s': StoreState, l': Ledger,
                              detail: (string, Verdict))
    requires r.id.operationId in s.operations
  {
    && r.id.executionId in s'.executions && r.id.operationId in s'.operations
    && var r' := s'.executions[r.id.executionId];
    && Timeless(r') == Timeless(e.record) && r'.id == r.id
    && s'.operations[r.id.operationId] == Mark(s.operations[r.id.operationId], r'.status)
    && SameReversal(r, l', e.ledger)
    && detail == (r.id.executionId, VerdictOf(r'.status))
  }

  ghost predicate SameIndexes(s: StoreState, s': StoreState) {
    && s'.operationByKey == s.operationByKey && s'.executionByOperation == s.executionByOperation
    && s'.executionOrder == s.executionOrder
    && s'.executions.Keys == s.executions.Keys && s'.operations.Keys == s.operations.Keys
    && s.audit <= s'.audit
  }

  /** A sweep over `done`: each of these settled as its effect says, every other record, operation and row unchanged. */
  ghost predicate Swept(s: StoreState, l: Ledger, done: seq<ExecutionRecord>, effects: seq<Effect>,
                        s': StoreState, l': Ledger, details: seq<(string, Verdict)>)
  {
    && SameIndexes(s, s') && SweptRecords(s, done, effects, s', l', details)
    && SweptFrame(s, done, s') && SweptLedger(s, l, done, l')
  }

  ghost predicate SweptRecords(s: StoreState, done: seq<ExecutionRecord>, effects: seq<Effect>,
                               s': StoreState, l': Ledger, details: seq<(string, Verdict)>)
  {
    && |details| == |done| == |effects|
    && (forall i :: 0 <= i < |done| ==>
          done[i].id.operationId in s.operations && SweptRecord(done[i], effects[i], s, s', l', details[i]))
  }

  ghost predicate SweptFrame(s: StoreState, done: seq<ExecutionRecord>, s': StoreState)
    requires SameIndexes(s, s')
  {
    && (forall id :: id in s.executions && id !in Ids(done) ==> s'.executions[id] == s.executions[id])
    && (forall o :: o in s.operations && o !in OperationIds(done) ==> s'.operations[o] == s.operations[o])
  }

  ghost predicate SweptLedger(s: StoreState, l: Ledger, done: seq<ExecutionRecord>, l': Ledger) {
    && l'.txns == l.txns
    && (forall k :: k in l.reversals ==> k in l'.reversals && l'.reversals[k] == l.reversals[k])
    && (forall k :: k in l'.reversals && k !in l.reversals ==>
          k.2 in Ids(done) && k.2 in s.executions && k == ReversalKey(s.executions[k.2]))
  }

  ghost function OperationIds(rs: seq<ExecutionRecord>): set<string> {
    set i | 0 <= i < |rs| :: rs[i].id.operationId
  }

  /** What reconciling each record against the ledger before the sweep amounts to. */
  ghost function EffectsOf(c: Config, targets: seq<ExecutionRecord>, l: Ledger, env: string -> ReconcileFaults)
    : (es: seq<Effect>)
    ensures |es| == |targets|
  {
    seq(|targets|, i requires 0 <= i < |targets| => ReconcileEffect(c, targets[i], l, env(targets[i].id.executionId)))
  }

  /** One more record settled extends the sweep. */
  lemma SweepStep(s: StoreState, l: Ledger, done: seq<ExecutionRecord>, effects: seq<Effect>,
                  s': StoreState, l': Ledger, details: seq<(string, Verdict)>,
                  r: ExecutionRecord, e: Effect, r': ExecutionRecord, s'': StoreState, l'': Ledger)
    requires Swept(s, l, done, effects, s', l', details)
    requires r.id.executionId !in Ids(done) && r.id.operationId !in OperationIds(done)
    requires r.id.executionId in s.executions && r.id.operationId in s.operations
    requires s.operations[r.id.operationId].operationId == r.id.operationId
    requires r'.id == r.id && Timeless(r') == Timeless(e.record)
    requires SameReversal(r, l'', e.ledger)
    requires s'.audit <= s''.audit && s'' == Commit(s', r').(audit := s''.audit)
    requires LedgerGrowsFor(r, l', l'') && l''.txns == l'.txns
    requires ReversalKey(s.executions[r.id.executionId]) == ReversalKey(r)
    ensures Swept(s, l, done + [r], effects + [e], s'', l'', details + [(r.id.executionId, VerdictOf(r'.status))])
  {
    KeysGrow(done, r);
    SweepRecordsStay(s, l, done, effects, s', l', details, r, r', s'', l'');
    SweepRecordAdded(s, done, effects, s', details, r, e, r', s'', l'');
    SweepFrameGrows(s, done, s', r, r', s'');
    SweepLedgerGrows(s, l, done, l', r, l'');
  }

  lemma SweepRecordAdded(s: StoreState, done: seq<ExecutionRecord>, effects: seq<Effect>, s': StoreState,
                         details: seq<(string, Verdict)>, r: ExecutionRecord, e: Effect, r': ExecutionRecord,
                         s'': StoreState, l'': Ledger)
    requires |details| == |done| == |effects| && SameIndexes(s, s') && SweptFrame(s, done, s')
    requires forall i :: 0 <= i < |done| ==>
               done[i].id.operationId in s.operations && SweptRecord(done[i], effects[i], s, s'', l'', details[i])
    requires r.id.operationId in s.operations && r.id.operationId !in OperationIds(done)
    requires r'.id == r.id && Timeless(r') == Timeless(e.record)
    requires SameReversal(r, l'', e.ledger)
    requires s'' == Commit(s', r').(audit := s''.audit)
    ensures SweptRecords(s, done + [r], effects + [e], s'', l'', details + [(r.id.executionId, VerdictOf(r'.status))])
  {
    assert SweptRecord(r, e, s, s'', l'', (r.id.executionId, VerdictOf(r'.status)));
  }

  lemma SweepFrameGrows(s: StoreState, done: seq<ExecutionRecord>, s': StoreState, r: ExecutionRecord,
                        r': ExecutionRecord, s'': StoreState)
    requires SameIndexes(s, s') && SweptFrame(s, done, s')
    requires r.id.executionId in s.executions && r.id.operationId in s.operations && r'.id == r.id
    requires s'.audit <= s''.audit && s'' == Commit(s', r').(audit := s''.audit)
    ensures SameIndexes(s, s'') && SweptFrame(s, done + [r], s'')
  {
    KeysGrow(done, r);
  }

  lemma SweepLedgerGrows(s: StoreState, l: Ledger, done: seq<ExecutionRecord>, l': Ledger, r: ExecutionRecord,
                         l'': Ledger)
    requires SweptLedger(s, l, done, l') && LedgerGrowsFor(r, l', l'') && l''.txns == l'.txns
    requires r.id.executionId in s.executions && ReversalKey(s.executions[r.id.executionId]) == ReversalKey(r)
    ensures SweptLedger(s, l, done + [r], l'')
  {
    KeysGrow(done, r);
  }

  lemma KeysGrow(rs: seq<ExecutionRecord>, r: ExecutionRecord)
    ensures Ids(rs + [r]) == Ids(rs) + {r.id.executionId}
    ensures OperationIds(rs + [r]) == OperationIds(rs) + {r.id.operationId}
  {
    var more := rs + [r];
    assert more[|rs|] == r;
    assert forall i :: 0 <= i < |rs| ==> more[i] == rs[i];
  }

  lemma SweepRecordsStay(s: StoreState, l: Ledger, done: seq<ExecutionRecord>, effects: seq<Effect>,
                         s': StoreState, l': Ledger, details: seq<(string, Verdict)>,
                         r: ExecutionRecord, r': ExecutionRecord, s'': StoreState, l'': Ledger)
    requires Swept(s, l, done, effects, s', l', details)
    requires r.id.executionId !in Ids(done) && r.id.operationId !in OperationIds(done)
    requires r'.id == r.id && r.id.operationId in s'.operations
    requires s'.operations[r.id.operationId].operationId == r.id.operationId
    requires s'' == Commit(s', r').(audit := s''.audit) && LedgerGrowsFor(r, l', l'')
    ensures forall i :: 0 <= i < |done| ==> SweptRecord(done[i], effects[i], s, s'', l'', details[i])
  {
    forall i | 0 <= i < |done|
      ensures SweptRecord(done[i], effects[i], s, s'', l'', details[i])
    {
      assert done[i].id.executionId in Ids(done) && done[i].id.operationId in OperationIds(done);
    }
  }

  /** After the sweep its records are closed, the tenant's other open records are still open, and nothing
      else opened; what each counter reports is what the records ended as. */
  lemma SweepCloses(s: StoreState, l: Ledger, tenantId: string, done: seq<ExecutionRecord>, effects: seq<Effect>,
                    s': StoreState, l': Ledger, details: seq<(string, Verdict)>)
    requires Distinct(done)
    requires forall r :: r in done ==> r.id.executionId in s.executions && s.executions[r.id.executionId] == r
    requires forall r :: r in done ==> r.id.tenantId == tenantId && Wanted(r.status)
    requires Swept(s, l, done, effects, s', l', details)
    requires forall i :: 0 <= i < |done| ==> !Wanted(effects[i].record.status)
    ensures Open(s', tenantId) == Open(s, tenantId) - Ids(done)
    ensures |Open(s', tenantId)| == |Open(s, tenantId)| - |done|
  {
    DistinctCount(done);
    SweptIdsClose(s, l, tenantId, done, effects, s', l', details);
    SweptOthersStay(s, tenantId, done, s');
    RemovedCount(Open(s, tenantId), Ids(done));
  }

  lemma RemovedCount<T>(a: set<T>, b: set<T>)
    requires b <= a
    ensures |a - b| == |a| - |b|
  {
    assert a == b + (a - b);
  }

  /** What the sweep has settled was open before and is not open after it. */
  lemma SweptIdsClose(s: StoreState, l: Ledger, tenantId: string, done: seq<ExecutionRecord>, effects: seq<Effect>,
                      s': StoreState, l': Ledger, details: seq<(string, Verdict)>)
    requires forall r :: r in done ==> r.id.executionId in s.executions && s.executions[r.id.executionId] == r
    requires forall r :: r in done ==> r.id.tenantId == tenantId && Wanted(r.status)
    requires SameIndexes(s, s') && SweptRecords(s, done, effects, s', l', details)
    requires forall i :: 0 <= i < |done| ==> !Wanted(effects[i].record.status)
    ensures Ids(done) <= Open(s, tenantId) && Ids(done) !! Open(s', tenantId)
  {
    forall id | id in Ids(done)
      ensures id in Open(s, tenantId) && id !in Open(s', tenantId)
    {
      var i :| 0 <= i < |done| && done[i].id.executionId == id;
      assert done[i] in done;
      assert SweptRecord(done[i], effects[i], s, s', l', details[i]);
    }
  }

  /** Everything else is as open as it was. */
  lemma SweptOthersStay(s: StoreState, tenantId: string, done: seq<ExecutionRecord>, s': StoreState)
    requires SameIndexes(s, s') && SweptFrame(s, done, s')
    requires Ids(done) <= Open(s, tenantId) && Ids(done) !! Open(s', tenantId)
    ensures Open(s', tenantId) == Open(s, tenantId) - Ids(done)
  {
    forall id | id !in Ids(done)
      ensures id in Open(s', tenantId) <==> id in Open(s, tenantId)
    {
      assert id in s.executions <==> id in s'.executions;
    }
  }

  /** Every counter of a sweep counts the records that ended in the statuses it stands for; none of the four
      statuses that nothing writes is reached, unless a record was found in RECONCILING. */
  lemma VerdictsMatchEndings(c: Config, s: StoreState, l: Ledger, done: seq<ExecutionRecord>,
                             env: string -> ReconcileFaults, s': StoreState, l': Ledger,
                             details: seq<(string, Verdict)>, i: nat)
    requires Swept(s, l, done, EffectsOf(c, done, l, env), s', l', details) && i < |done| && Wanted(done[i].status)
    ensures done[i].id.executionId in s'.executions
    ensures var final := s'.executions[done[i].id.executionId].status;
            IsTerminal(final)
            && (final == HumanHandoff ==> done[i].status == Reconciling)
            && (details[i].1 == SettledConfirmed <==> final in {Confirmed, Compensated, HumanHandoff})
            && (details[i].1 == SettledMismatch <==> final == Mismatched)
            && (details[i].1 == SettledHandoff <==> final == CompensationFailed)
  {
    ReconcileCloses(c, done[i], l, env(done[i].id.executionId));
    ReconcileNeverReconciled(c, done[i], l, env(done[i].id.executionId));
    assert SweptRecord(done[i], EffectsOf(c, done, l, env)[i], s, s', l', details[i]);
  }

  /** Reconciling one record: its effect against the current ledger, committed with its operation. */
  ghost predicate ReconciledOne(c: Config, r: ExecutionRecord, f: ReconcileFaults, s: StoreState, l: Ledger,
                                s': StoreState, l': Ledger, verdict: Verdict)
  {
    var e := ReconcileEffect(c, r, l, f);
    && r.id.executionId in s'.executions && r.id.operationId in s.operations
    && var r' := s'.executions[r.id.executionId];
    && Timeless(r') == Timeless(e.record) && r'.id == r.id && l' == e.ledger
    && s' == Commit(s, r').(audit := s.audit + ReconcileAudit(r')) && verdict == VerdictOf(r'.status)
  }

  /** A sweep, finished or not, keeps store and ledger in order. */
  lemma SweptKeepsOrder(c: Config, s: StoreState, l: Ledger, done: seq<ExecutionRecord>, env: string -> ReconcileFaults,
                        s': StoreState, l': Ledger, details: seq<(string, Verdict)>)
    requires Linked(s) && LedgerValid(l) && TargetsOf(s, done)
    requires Swept(s, l, done, EffectsOf(c, done, l, env), s', l', details)
    ensures Linked(s') && LedgerValid(l')
    ensures Consistent(c.hasProvider, s, l) ==> Consistent(c.hasProvider, s', l')
  {
    SweptKeepsLinked(s, l, done, EffectsOf(c, done, l, env), s', l', details);
    if Consistent(c.hasProvider, s, l) {
      SweptKeepsRows(s, l, done, EffectsOf(c, done, l, env), s', l', details);
      forall id: string
        ensures Rests(c.hasProvider, s', l', id)
      {
        SweptRests(c, s, l, done, env, s', l', details, id);
      }
    }
  }

  lemma SweptRests(c: Config, s: StoreState, l: Ledger, done: seq<ExecutionRecord>, env: string -> ReconcileFaults,
                   s': StoreState, l': Ledger, details: seq<(string, Verdict)>, id: string)
    requires TargetsOf(s, done) && Consistent(c.hasProvider, s, l)
    requires Swept(s, l, done, EffectsOf(c, done, l, env), s', l', details)
    ensures Rests(c.hasProvider, s', l', id)
  {
    if id in s.executions {
      RestsAt(c.hasProvider, s, l, id);
      if id in Ids(done) {
        SweptAtRest(c, s, l, done, env, s', l', details, id);
      } else {
        UnsweptAtRest(c, s, l, done, EffectsOf(c, done, l, env), s', l', details, id);
      }
    }
  }

  lemma SweptKeepsLinked(s: StoreState, l: Ledger, done: seq<ExecutionRecord>, effects: seq<Effect>,
                         s': StoreState, l': Ledger, details: seq<(string, Verdict)>)
    requires Linked(s) && TargetsOf(s, done) && Swept(s, l, done, effects, s', l', details)
    ensures Linked(s')
  {
    SweptKeepsIds(s, done, effects, s', l', details);
    SweptKeepsOperations(s, done, effects, s', l', details);
    SameShapeLinked(s, s');
  }

  lemma SweptKeepsOperations(s: StoreState, done: seq<ExecutionRecord>, effects: seq<Effect>,
                             s': StoreState, l': Ledger, details: seq<(string, Verdict)>)
    requires SameIndexes(s, s') && SweptRecords(s, done, effects, s', l', details) && SweptFrame(s, done, s')
    ensures forall o :: o in s.operations ==> SameOperation(s'.operations[o], s.operations[o])
  {
    forall o | o in s.operations
      ensures SameOperation(s'.operations[o], s.operations[o])
    {
      if o in OperationIds(done) {
        var i :| 0 <= i < |done| && done[i].id.operationId == o;
        assert SweptRecord(done[i], effects[i], s, s', l', details[i]);
      }
    }
  }

  lemma SameShapeLinked(s: StoreState, s': StoreState)
    requires Linked(s) && SameIndexes(s, s')
    requires forall id :: id in s.executions ==> s'.executions[id].id == s.executions[id].id
    requires forall o :: o in s.operations ==> SameOperation(s'.operations[o], s.operations[o])
    ensures Linked(s')
  {
    assert forall id :: id in s'.executions <==> id in s.executions;
    assert forall o :: o in s'.operations <==> o in s.operations;
    assert OperationsIndexed(s');
    assert ExecutionsIndexed(s');
  }

  lemma SweptKeepsRows(s: StoreState, l: Ledger, done: seq<ExecutionRecord>, effects: seq<Effect>,
                       s': StoreState, l': Ledger, details: seq<(string, Verdict)>)
    requires Linked(s) && Linked(s') && RowsOwned(s, l) && TargetsOf(s, done)
    requires Swept(s, l, done, effects, s', l', details)
    ensures RowsOwned(s', l')
  {
    SweptKeepsIds(s, done, effects, s', l', details);
    SweptRowsAreOwned(s, l, done, s', l');
    RowsStayOwned(s, l, s', l');
  }

  lemma SweptKeepsIds(s: StoreState, done: seq<ExecutionRecord>, effects: seq<Effect>,
                      s': StoreState, l': Ledger, details: seq<(string, Verdict)>)
    requires SameIndexes(s, s') && SweptRecords(s, done, effects, s', l', details) && SweptFrame(s, done, s')
    requires forall i :: 0 <= i < |done| ==>
               done[i].id.executionId in s.executions && s.executions[done[i].id.executionId] == done[i]
    ensures forall id :: id in s.executions ==> id in s'.executions && s'.executions[id].id == s.executions[id].id
  {
    forall id | id in s.executions
      ensures id in s'.executions && s'.executions[id].id == s.executions[id].id
    {
      if id in Ids(done) {
        var i :| 0 <= i < |done| && done[i].id.executionId == id;
        assert SweptRecord(done[i], effects[i], s, s', l', details[i]);
      }
    }
  }

  /** The reversals a sweep adds belong to executions it has settled. */
  lemma SweptRowsAreOwned(s: StoreState, l: Ledger, done: seq<ExecutionRecord>, s': StoreState, l': Ledger)
    requires Linked(s') && SweptLedger(s, l, done, l')
    requires forall id :: id in s.executions ==> id in s'.executions && s'.executions[id].id == s.executions[id].id
    ensures forall k :: k in l'.reversals && k !in l.reversals ==> ReversalOwned(s', l', k)
  {
  }

  lemma SweptAtRest(c: Config, s: StoreState, l: Ledger, done: seq<ExecutionRecord>, env: string -> ReconcileFaults,
                    s': StoreState, l': Ledger, details: seq<(string, Verdict)>, id: string)
    requires TargetsOf(s, done) && id in Ids(done)
    requires Swept(s, l, done, EffectsOf(c, done, l, env), s', l', details)
    requires id in s.executions && s.executions[id].id.operationId in s.operations
    requires AtRest(c.hasProvider, s.executions[id], s.operations[s.executions[id].id.operationId], l)
    ensures id in s'.executions && s'.executions[id].id.operationId in s'.operations
    ensures AtRest(c.hasProvider, s'.executions[id], s'.operations[s'.executions[id].id.operationId], l')
  {
    var i :| 0 <= i < |done| && done[i].id.executionId == id;
    var r, f := done[i], env(id);
    var e, r' := ReconcileEffect(c, r, l, f), s'.executions[id];
    assert SweptRecord(r, e, s, s', l', details[i]);
    ReconciledAtRest(c, r, s.operations[r.id.operationId], l, f, r');
    ReconcileCloses(c, r, l, f);
    AtRestFrame(c.hasProvider, r', s'.operations[r.id.operationId], e.ledger, l');
  }

  lemma UnsweptAtRest(c: Config, s: StoreState, l: Ledger, done: seq<ExecutionRecord>, effects: seq<Effect>,
                      s': StoreState, l': Ledger, details: seq<(string, Verdict)>, id: string)
    requires Linked(s) && TargetsOf(s, done) && id !in Ids(done) && id in s.executions
    requires Swept(s, l, done, effects, s', l', details)
    requires AtRest(c.hasProvider, s.executions[id], s.operations[s.executions[id].id.operationId], l)
    ensures s'.executions[id] == s.executions[id] && s'.executions[id].id.operationId in s'.operations
    ensures AtRest(c.hasProvider, s'.executions[id], s'.operations[s'.executions[id].id.operationId], l')
  {
    var r := s.executions[id];
    assert r.id.operationId !in OperationIds(done) by {
      forall i | 0 <= i < |done|
        ensures done[i].id.operationId != r.id.operationId
      {
        KeysIdentify(s, done[i].id.executionId, id);
      }
    }
    AtRestFrame(c.hasProvider, r, s.operations[r.id.operationId], l, l');
  }

  lemma ReconciledAtRest(c: Config, r: ExecutionRecord, op: Operation, l: Ledger, f: ReconcileFaults,
                         r': ExecutionRecord)
    requires AtRest(c.hasProvider, r, op, l) && Wanted(r.status)
    requires Timeless(r') == Timeless(ReconcileEffect(c, r, l, f).record)
    ensures AtRest(c.hasProvider, r', Mark(op, r'.status), ReconcileEffect(c, r, l, f).ledger)
  {
    ReconcileComesToRest(c, r, op, l, f);
    var e := ReconcileEffect(c, r, l, f);
    AtRestIgnoresTimes(c.hasProvider, r', e.record, Mark(op, r'.status), e.ledger);
  }

  ghost predicate TargetsOf(s: StoreState, targets: seq<ExecutionRecord>) {
    Distinct(targets)
    && forall i :: 0 <= i < |targets| ==>
         && targets[i].id.executionId in s.executions && s.executions[targets[i].id.executionId] == targets[i]
         && Wanted(targets[i].status)
  }

  /** Distinct open records of the tenant: 200 of them or more, or all there are. */
  ghost predicate Collected(s: StoreState, tenantId: string, targets: seq<ExecutionRecord>)
    requires ValidStore(s)
  {
    && Distinct(targets)
    && (forall r :: r in targets ==> r in TenantRecords(s.executionOrder, s.executions, tenantId) && Wanted(r.status))
    && (|targets| >= TARGET_LIMIT
        || forall r :: r in TenantRecords(s.executionOrder, s.executions, tenantId) && Wanted(r.status) ==>
             r in targets)
  }

  /** The targets are those of these readings, made one after the other; and, unless the last pass finds more than 5000
      overdue, every record found overdue at any of its own readings is among them. */
  ghost predicate TakenAt(s: StoreState, tenantId: string, targets: seq<ExecutionRecord>, at: Readings,
                          start: real, end: real, timeout: real)
    requires ValidStore(s)
  {
    var records := TenantRecords(s.executionOrder, s.executions, tenantId);
    && ReadInOrder(records, at, start, end) && targets == TargetsAt(records, at, timeout)
    && (|OverduePart(records, at.third, timeout)| <= OVERDUE_LIMIT ==> OverdueTaken(records, at, timeout, targets))
  }

  lemma TakenIsCollected(s: StoreState, tenantId: string, at: Readings, start: real, end: real, timeout: real)
    requires ValidStore(s)
    requires ReadInOrder(TenantRecords(s.executionOrder, s.executions, tenantId), at, start, end)
    ensures var targets := TargetsAt(TenantRecords(s.executionOrder, s.executions, tenantId), at, timeout);
            Collected(s, tenantId, targets) && TakenAt(s, tenantId, targets, at, start, end, timeout)
  {
    var records := TenantRecords(s.executionOrder, s.executions, tenantId);
    TenantRecordsExact(s.executionOrder, s.executions, tenantId);
    TargetsExact(records, at, timeout, start, end);
    TargetsCover(records, at, timeout, start, end);
    OverdueAreTaken(records, at, timeout, start, end);
  }

  lemma TakenLater(s: StoreState, tenantId: string, targets: seq<ExecutionRecord>, at: Readings,
                   start: real, end: real, later: real, timeout: real)
    requires ValidStore(s) && end <= later && TakenAt(s, tenantId, targets, at, start, end, timeout)
    ensures TakenAt(s, tenantId, targets, at, start, later, timeout)
  {
  }

  lemma ListedAreTargets(s: StoreState, tenantId: string, targets: seq<ExecutionRecord>)
    requires ValidStore(s) && Collected(s, tenantId, targets)
    ensures TargetsOf(s, targets)
  {
    TenantRecordsExact(s.executionOrder, s.executions, tenantId);
    assert forall i :: 0 <= i < |targets| ==> targets[i] in targets;
  }

  lemma PrefixGrows<T>(xs: seq<T>, i: nat)
    requires i < |xs|
    ensures xs[..i] + [xs[i]] == xs[..i + 1]
  {
  }

  lemma NextIsNew(s: StoreState, targets: seq<ExecutionRecord>, i: nat)
    requires Linked(s) && TargetsOf(s, targets) && i < |targets|
    ensures targets[i].id.executionId !in Ids(targets[..i]) && targets[i].id.operationId !in OperationIds(targets[..i])
    ensures targets[i].id.operationId in s.operations
    ensures s.operations[targets[i].id.operationId].operationId == targets[i].id.operationId
    ensures s.operations[targets[i].id.operationId].tenantId == targets[i].id.tenantId
  {
    forall j | 0 <= j < i
      ensures targets[j].id.operationId != targets[i].id.operationId
    {
      KeysIdentify(s, targets[j].id.executionId, targets[i].id.executionId);
    }
  }

  /** The next record is still as it was listed when its turn comes. */
  lemma NextIsUntouched(s: StoreState, l: Ledger, targets: seq<ExecutionRecord>, i: nat, done: seq<ExecutionRecord>,
                        effects: seq<Effect>, s1: StoreState, l1: Ledger, details: seq<(string, Verdict)>)
    requires Linked(s) && TargetsOf(s, targets) && i < |targets| && done == targets[..i]
    requires Swept(s, l, done, effects, s1, l1, details)
    ensures targets[i].id.executionId !in Ids(done) && targets[i].id.operationId !in OperationIds(done)
    ensures targets[i].id.executionId in s1.executions && s1.executions[targets[i].id.executionId] == targets[i]
    ensures targets[i].id.operationId in s1.operations
    ensures s1.operations[targets[i].id.operationId] == s.operations[targets[i].id.operationId]
    ensures s1.operations[targets[i].id.operationId].operationId == targets[i].id.operationId
  {
    NextIsNew(s, targets, i);
  }

  /** A settled record, told against the effect it had before the sweep. */
  ghost predicate NextSettled(r: ExecutionRecord, e: Effect, s1: StoreState, l1: Ledger, s2: StoreState, l2: Ledger,
                              verdict: Verdict)
  {
    && r.id.executionId in s2.executions && r.id.operationId in s1.operations
    && var r' := s2.executions[r.id.executionId];
    && r'.id == r.id && Timeless(r') == Timeless(e.record) && verdict == VerdictOf(r'.status)
    && s2 == Commit(s1, r').(audit := s1.audit + ReconcileAudit(r'))
    && SameReversal(r, l2, e.ledger)
    && LedgerGrowsFor(r, l1, l2) && l2.txns == l1.txns
  }

  lemma EffectBeforeSweep(c: Config, r: ExecutionRecord, l: Ledger, s1: StoreState, l1: Ledger, f: ReconcileFaults,
                          s2: StoreState, l2: Ledger, verdict: Verdict)
    requires l.txns == l1.txns && Wanted(r.status) && ReconciledOne(c, r, f, s1, l1, s2, l2, verdict)
    requires SameReversal(r, l, l1)
    ensures NextSettled(r, ReconcileEffect(c, r, l, f), s1, l1, s2, l2, verdict)
  {
    ReconcileIsLocal(c, r, l, l1, f);
    ReconcileCloses(c, r, l1, f);
  }

  lemma OwnRowUntouched(s: StoreState, l: Ledger, done: seq<ExecutionRecord>, effects: seq<Effect>,
                        s1: StoreState, l1: Ledger, details: seq<(string, Verdict)>, r: ExecutionRecord)
    requires Swept(s, l, done, effects, s1, l1, details) && r.id.executionId !in Ids(done)
    ensures SameReversal(r, l, l1)
    ensures l1.txns == l.txns
  {
  }

  lemma SweepNext(s: StoreState, l: Ledger, done: seq<ExecutionRecord>, effects: seq<Effect>,
                  s1: StoreState, l1: Ledger, details: seq<(string, Verdict)>,
                  r: ExecutionRecord, e: Effect, s2: StoreState, l2: Ledger, verdict: Verdict)
    requires Swept(s, l, done, effects, s1, l1, details) && NextSettled(r, e, s1, l1, s2, l2, verdict)
    requires r.id.executionId !in Ids(done) && r.id.operationId !in OperationIds(done)
    requires r.id.executionId in s.executions && r.id.operationId in s.operations
    requires s.executions[r.id.executionId].id == r.id
    requires s.operations[r.id.operationId].operationId == r.id.operationId
    ensures Swept(s, l, done + [r], effects + [e], s2, l2, details + [(r.id.executionId, verdict)])
  {
    SweepStep(s, l, done, effects, s1, l1, details, r, e, s2.executions[r.id.executionId], s2, l2);
  }

  /** The sweep's next target is as it was before the sweep. */
  lemma NextIsReady(s: StoreState, l: Ledger, targets: seq<ExecutionRecord>, effects: seq<Effect>, i: nat,
                    s1: StoreState, l1: Ledger, details: seq<(string, Verdict)>)
    requires Linked(s) && TargetsOf(s, targets) && i < |targets| == |effects|
    requires SweptUpTo(s, l, targets, effects, i, s1, l1, details)
    ensures targets[i].id.executionId in s1.executions && s1.executions[targets[i].id.executionId] == targets[i]
    ensures targets[i].id.operationId in s1.operations && Wanted(targets[i].status)
    ensures s1.operations[targets[i].id.operationId].tenantId == targets[i].id.tenantId
    ensures s1.operations[targets[i].id.operationId].operationId == targets[i].id.operationId
    ensures l1.txns == l.txns
  {
    NextIsNew(s, targets, i);
    NextIsUntouched(s, l, targets, i, targets[..i], effects[..i], s1, l1, details);
  }

  /** One more target settled. */
  lemma SweptOneMore(c: Config, s: StoreState, l: Ledger, targets: seq<ExecutionRecord>, env: string -> ReconcileFaults,
                     i: nat, s1: StoreState, l1: Ledger, details: seq<(string, Verdict)>,
                     s2: StoreState, l2: Ledger, verdict: Verdict)
    requires Linked(s) && TargetsOf(s, targets) && i < |targets|
    requires SweptUpTo(s, l, targets, EffectsOf(c, targets, l, env), i, s1, l1, details)
    requires ReconciledOne(c, targets[i], env(targets[i].id.executionId), s1, l1, s2, l2, verdict)
    ensures SweptUpTo(s, l, targets, EffectsOf(c, targets, l, env), i + 1, s2, l2,
                      details + [(targets[i].id.executionId, verdict)])
  {
    var r, effects := targets[i], EffectsOf(c, targets, l, env);
    NextIsNew(s, targets, i);
    OwnRowUntouched(s, l, targets[..i], effects[..i], s1, l1, details, r);
    EffectBeforeSweep(c, r, l, s1, l1, env(r.id.executionId), s2, l2, verdict);
    SweepNext(s, l, targets[..i], effects[..i], s1, l1, details, r, effects[i], s2, l2, verdict);
    PrefixGrows(targets, i);
    PrefixGrows(effects, i);
  }

  /** What a finished sweep leaves open. */
  lemma SweepEnds(c: Config, s: StoreState, l: Ledger, tenantId: string, targets: seq<ExecutionRecord>,
                  env: string -> ReconcileFaults, s': StoreState, l': Ledger, details: seq<(string, Verdict)>)
    requires ValidStore(s) && Collected(s, tenantId, targets)
    requires Swept(s, l, targets, EffectsOf(c, targets, l, env), s', l', details)
    ensures Open(s', tenantId) == Open(s, tenantId) - Ids(targets)
    ensures |Open(s', tenantId)| == |Open(s, tenantId)| - |targets|
    ensures |targets| >= 200 || Open(s', tenantId) == {}
  {
    TenantRecordsExact(s.executionOrder, s.executions, tenantId);
    EffectsClose(c, targets, l, env);
    SweepCloses(s, l, tenantId, targets, EffectsOf(c, targets, l, env), s', l', details);
    if |targets| < TARGET_LIMIT {
      OpenAreTargets(s, tenantId, targets);
    }
  }

  lemma OpenAreTargets(s: StoreState, tenantId: string, targets: seq<ExecutionRecord>)
    requires ValidStore(s) && Collected(s, tenantId, targets) && |targets| < 200
    ensures Open(s, tenantId) <= Ids(targets)
  {
    TenantRecordsExact(s.executionOrder, s.executions, tenantId);
    forall id | id in Open(s, tenantId)
      ensures id in Ids(targets)
    {
      assert Wanted(s.executions[id].status) && s.executions[id] in targets;
      MembersHaveIds(targets, s.executions[id]);
    }
  }

  /** A finished sweep: every target settled as its effect says, the counters its counts; its targets are no longer
      open, nothing else changed, and fewer than 200 targets means that nothing is left open. */
  ghost predicate SweepDone(c: Config, s: StoreState, l: Ledger, tenantId: string, targets: seq<ExecutionRecord>,
                            env: string -> ReconcileFaults, s': StoreState, l': Ledger, tally: ReconciliationResult)
  {
    && TargetsOf(s, targets) && Tallied(tally)
    && Swept(s, l, targets, EffectsOf(c, targets, l, env), s', l', tally.details)
    && Open(s', tenantId) == Open(s, tenantId) - Ids(targets)
    && |Open(s', tenantId)| == |Open(s, tenantId)| - |targets|
    && (|targets| >= 200 || Open(s', tenantId) == {})
  }

  lemma EffectsClose(c: Config, targets: seq<ExecutionRecord>, l: Ledger, env: string -> ReconcileFaults)
    requires forall r :: r in targets ==> Wanted(r.status)
    ensures forall i :: 0 <= i < |targets| ==> !Wanted(EffectsOf(c, targets, l, env)[i].record.status)
  {
    forall i | 0 <= i < |targets|
      ensures !Wanted(EffectsOf(c, targets, l, env)[i].record.status)
    {
      assert targets[i] in targets;
      ReconcileCloses(c, targets[i], l, env(targets[i].id.executionId));
    }
  }

  /** The first `n` targets have been swept. */
  ghost predicate SweptUpTo(s: StoreState, l: Ledger, targets: seq<ExecutionRecord>, effects: seq<Effect>, n: nat,
                            s': StoreState, l': Ledger, details: seq<(string, Verdict)>)
    requires n <= |targets| == |effects|
  {
    Swept(s, l, targets[..n], effects[..n], s', l', details)
  }

  lemma SweepStarts(s: StoreState, l: Ledger, targets: seq<ExecutionRecord>, effects: seq<Effect>)
    requires |targets| == |effects|
    ensures SweptUpTo(s, l, targets, effects, 0, s, l, [])
  {
  }

  lemma SweepIsWhole(s: StoreState, l: Ledger, targets: seq<ExecutionRecord>, effects: seq<Effect>,
                     s': StoreState, l': Ledger, details: seq<(string, Verdict)>)
    requires |targets| == |effects| && SweptUpTo(s, l, targets, effects, |targets|, s', l', details)
    ensures Swept(s, l, targets, effects, s', l', details)
  {
    assert targets[..|targets|] == targets && effects[..|targets|] == effects;
  }

  lemma ReconcileNeverReconciled(c: Config, r: ExecutionRecord, l: Ledger, f: ReconcileFaults)
    requires Wanted(r.status)
    ensures ReconcileEffect(c, r, l, f).record.status in
              {Confirmed, Compensated, HumanHandoff, Mismatched, CompensationFailed}
  {
  }

  /** One more record reported. */
  function Report(t: ReconciliationResult, executionId: string, verdict: Verdict): ReconciliationResult {
    ReconciliationResult(t.scanned + 1,
                         t.reconciled + if verdict == SettledConfirmed then 1 else 0,
                         t.misMatched + if verdict == SettledMismatch then 1 else 0,
                         t.humanHandoff + if verdict == SettledHandoff then 1 else 0,
                         t.details + [(executionId, verdict)])
  }

  lemma ReportKeepsTally(t: ReconciliationResult, executionId: string, verdict: Verdict)
    requires Tallied(t)
    ensures Tallied(Report(t, executionId, verdict))
  {
    assert (t.details + [(executionId, verdict)])[..|t.details|] == t.details;
  }
}
