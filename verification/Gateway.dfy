/** The external ledger: first-writer-wins transaction and reversal rows
    (src/execution/sandbox_gateway.py `GatewayStore`), reached through a client that may lose the request
    or the reply (src/execution/provider.py `SandboxHttpFundsProvider`). */
module Gateway {
  import opened Wrappers
  import opened ExecutionTypes

  /** What the network does to one call: a lost request never commits, a lost reply already has.
      Either one surfaces as a `ProviderError`. */
  datatype Fault = Healthy | RequestLost | ReplyLost

  datatype Txn = Txn(externalTxnId: string, amount: real, status: WireStatus)

  datatype Ledger = Ledger(
    txns: map<(string, string), Txn>,                      // (tenant, idempotency key)
    reversals: map<(string, string, string), real>)        // (tenant, idempotency key, execution): amount

  /** External ids identify one row within a tenant. */
  ghost predicate LedgerValid(l: Ledger) {
    forall j, k :: (j in l.txns && k in l.txns && j.0 == k.0
                    && l.txns[j].externalTxnId == l.txns[k].externalTxnId) ==> j == k
  }

  ghost predicate FreshTxnId(l: Ledger, x: string) {
    forall k :: k in l.txns ==> l.txns[k].externalTxnId != x
  }

  function TxnReceipt(t: Txn): Receipt {
    Receipt(Some(t.externalTxnId), Some(t.amount), t.status)
  }

  function AmountOf(r: ExecutionRecord): real {
    if r.id.amount.Some? then r.id.amount.value else 0.0
  }

  // ----- the three ledger operations -----

  function InsertTxn(l: Ledger, k: (string, string), t: Txn): Ledger {
    if k in l.txns then l else l.(txns := l.txns[k := t])
  }

  function InsertReversal(l: Ledger, k: (string, string, string), amount: real): Ledger {
    if k in l.reversals then l else l.(reversals := l.reversals[k := amount])
  }

  /** One request that reaches the ledger. */
  datatype Request =
    | Submission(key: (string, string), txn: Txn)
    | Reversal(row: (string, string, string), amount: real)

  function Serve(l: Ledger, q: Request): Ledger {
    match q
    case Submission(key, txn) => InsertTxn(l, key, txn)
    case Reversal(row, amount) => InsertReversal(l, row, amount)
  }

  function ServeAll(l: Ledger, qs: seq<Request>): Ledger {
    if qs == [] then l else Serve(ServeAll(l, qs[..|qs| - 1]), qs[|qs| - 1])
  }

  /** Whatever is requested, in whatever order: a row, once there, never changes. */
  lemma {:induction false} RowsStand(l: Ledger, qs: seq<Request>, key: (string, string), row: (string, string, string))
    ensures var l' := ServeAll(l, qs);
            && (key in l.txns ==> key in l'.txns && l'.txns[key] == l.txns[key])
            && (row in l.reversals ==> row in l'.reversals && l'.reversals[row] == l.reversals[row])
  {
    if qs != [] {
      RowsStand(l, qs[..|qs| - 1], key, row);
    }
  }

  /** And a new transaction row is that of the first submission under its key. */
  lemma {:induction false} FirstSubmissionWins(l: Ledger, qs: seq<Request>, key: (string, string))
    requires key !in l.txns
    ensures var l' := ServeAll(l, qs);
            if key in l'.txns then exists i :: FirstFor(qs, i, key) && qs[i].txn == l'.txns[key]
            else forall i :: 0 <= i < |qs| && qs[i].Submission? ==> qs[i].key != key
  {
    if qs != [] {
      var n := |qs| - 1;
      FirstSubmissionWins(l, qs[..n], key);
      var before := ServeAll(l, qs[..n]);
      if key in before.txns {
        var i :| FirstFor(qs[..n], i, key) && qs[..n][i].txn == before.txns[key];
        StillFirst(qs, i, key);
      } else if qs[n].Submission? && qs[n].key == key {
        assert FirstFor(qs, n, key);
      }
    }
  }

  lemma StillFirst(qs: seq<Request>, i: int, key: (string, string))
    requires qs != [] && FirstFor(qs[..|qs| - 1], i, key)
    ensures FirstFor(qs, i, key) && qs[i] == qs[..|qs| - 1][i]
  {
  }

  /** And so for the reversals of an execution. */
  lemma {:induction false} FirstReversalWins(l: Ledger, qs: seq<Request>, row: (string, string, string))
    requires row !in l.reversals
    ensures var l' := ServeAll(l, qs);
            if row in l'.reversals then exists i :: FirstBack(qs, i, row) && qs[i].amount == l'.reversals[row]
            else forall i :: 0 <= i < |qs| && qs[i].Reversal? ==> qs[i].row != row
  {
    if qs != [] {
      var n := |qs| - 1;
      FirstReversalWins(l, qs[..n], row);
      var before := ServeAll(l, qs[..n]);
      if row in before.reversals {
        var i :| FirstBack(qs[..n], i, row) && qs[..n][i].amount == before.reversals[row];
        assert FirstBack(qs, i, row) && qs[i].amount == before.reversals[row];
      } else if qs[n].Reversal? && qs[n].row == row {
        assert FirstBack(qs, n, row);
      }
    }
  }

  predicate FirstFor(qs: seq<Request>, i: int, key: (string, string)) {
    && 0 <= i < |qs| && qs[i].Submission? && qs[i].key == key
    && forall j :: 0 <= j < i && qs[j].Submission? ==> qs[j].key != key
  }

  predicate FirstBack(qs: seq<Request>, i: int, row: (string, string, string)) {
    && 0 <= i < |qs| && qs[i].Reversal? && qs[i].row == row
    && forall j :: 0 <= j < i && qs[j].Reversal? ==> qs[j].row != row
  }

  /** The row a query finds: by tenant and external id. */
  ghost function FindTxn(txns: map<(string, string), Txn>, tenantId: string, x: string): (t: Option<Txn>)
    ensures t.Some? ==> t.value.externalTxnId == x && exists k :: k in txns && k.0 == tenantId && txns[k] == t.value
    ensures t.None? ==> forall k :: k in txns && k.0 == tenantId ==> txns[k].externalTxnId != x
  {
    if exists k :: k in txns && k.0 == tenantId && txns[k].externalTxnId == x then
      var k :| k in txns && k.0 == tenantId && txns[k].externalTxnId == x;
      Some(txns[k])
    else None
  }

  datatype QueryReply = QueryFailed | NotInLedger | Found(txn: Txn)

  ghost function QueryLedger(l: Ledger, tenantId: string, x: string, fault: Fault): QueryReply {
    if fault != Healthy then QueryFailed
    else
      var t := FindTxn(l.txns, tenantId, x);
      if t.Some? then Found(t.value) else NotInLedger
  }

  /** The provider as the engine sees it. */
  class GatewayProvider {
    var txns: map<(string, string), Txn>
    var reversals: map<(string, string, string), real>
    const reversalId: (string, string, string) -> string

    ghost function State(): Ledger
      reads this
    {
      Ledger(txns, reversals)
    }

    constructor (reversalId: (string, string, string) -> string)
      ensures State() == Ledger(map[], map[]) && this.reversalId == reversalId
    {
      txns, reversals := map[], map[];
      this.reversalId := reversalId;
    }

    /** INSERT ... ON CONFLICT DO NOTHING, then read back. None is a `ProviderError`. */
    method Submit(tenantId: string, key: string, amount: real, status: WireStatus, freshId: string, fault: Fault)
      returns (reply: Option<Txn>)
      modifies this`txns
      ensures State() == if fault == RequestLost then old(State())
                         else InsertTxn(old(State()), (tenantId, key), Txn(freshId, amount, status))
      ensures reply == if fault == Healthy then Some(txns[(tenantId, key)]) else None
      ensures (tenantId, key) in old(txns) ==>
                && State() == old(State())
                && (fault == Healthy ==> reply == Some(old(txns)[(tenantId, key)]))
      ensures (tenantId, key) !in old(txns) && fault != RequestLost ==>
                txns == old(txns)[(tenantId, key) := Txn(freshId, amount, status)]
    {
      if fault == RequestLost {
        return None;
      }
      if (tenantId, key) !in txns {
        txns := txns[(tenantId, key) := Txn(freshId, amount, status)];
      }
      reply := if fault == ReplyLost then None else Some(txns[(tenantId, key)]);
    }

    method Query(tenantId: string, externalTxnId: string, fault: Fault) returns (reply: QueryReply)
      requires LedgerValid(State())
      ensures reply == QueryLedger(State(), tenantId, externalTxnId, fault)
      ensures fault != Healthy <==> reply.QueryFailed?
      ensures forall k :: k in txns && k.0 == tenantId && txns[k].externalTxnId == externalTxnId && fault == Healthy ==>
                reply == Found(txns[k])
    {
      if fault != Healthy {
        return QueryFailed;
      }
      if k :| k in txns && k.0 == tenantId && txns[k].externalTxnId == externalTxnId {
        return Found(txns[k]);
      }
      reply := NotInLedger;
    }

    /** The reversal is recorded once per execution; repeating the request returns the same receipt. */
    method Compensate(tenantId: string, executionId: string, key: string, amount: real, fault: Fault)
      returns (receipt: Option<Receipt>)
      modifies this`reversals
      ensures State() == if fault == RequestLost then old(State())
                         else InsertReversal(old(State()), (tenantId, key, executionId), amount)
      ensures receipt == if fault == Healthy
                         then Some(Receipt(Some(reversalId(tenantId, key, executionId)),
                                           Some(reversals[(tenantId, key, executionId)]), WireReversed))
                         else None
      ensures (tenantId, key, executionId) in old(reversals) ==> State() == old(State())
      ensures (tenantId, key, executionId) !in old(reversals) && fault != RequestLost ==>
                reversals == old(reversals)[(tenantId, key, executionId) := amount]
    {
      var row := (tenantId, key, executionId);
      if fault == RequestLost {
        return None;
      }
      if row !in reversals {
        reversals := reversals[row := amount];
      }
      receipt := if fault == ReplyLost then None
                 else Some(Receipt(Some(reversalId(tenantId, key, executionId)), Some(reversals[row]), WireReversed));
    }
  }
}
