/** The atomic callback step: the pure plan shared by the three backends
    (src/infrastructure/store.py `plan_callback_atomic`, src/execution/verification.py). */
module CallbackPlan {
  import opened Wrappers
  import opened ExecutionTypes

  /** A verified callback body; `amount` is already a number. */
  datatype Payload = Payload(status: Option<WireStatus>, amount: Option<real>, externalTxnId: Option<string>)

  datatype Plan = Plan(
    reason: Reason,
    applied: bool,
    status: ExecutionStatus,
    nextStatus: Option<ExecutionStatus>,
    expectedStatus: ExecutionStatus,
    receipt: Option<Receipt>,
    claimedNonce: Option<string>,
    bookNonce: bool,
    operationId: string,
    operationStatus: Option<OperationStatus>,
    operationResult: Option<ExecutionStatus>,
    stampConfirmed: bool)

  /** Maps the external status to the next status of the record; anything unknown keeps it. */
  function NormalizeCallback(current: ExecutionStatus, p: Payload): ExecutionStatus {
    if p.status in {Some(WireSucceeded), Some(WireSuccess), Some(WireConfirmed)} then Confirmed
    else if p.status in {Some(WireFailed), Some(WireRejected), Some(WireRefunded)} then FailedDispatched
    else current
  }

  /** A plan that moves nothing. */
  function Still(r: ExecutionRecord, reason: Reason, claimed: Option<string>): Plan {
    Plan(reason, false, r.status, None, r.status, None, claimed, reason == Processing,
         r.id.operationId, None, None, false)
  }

  function MakePlan(r: ExecutionRecord, nonce: string, p: Payload): Plan {
    if r.callbackNonce == Some(nonce) then
      Still(r, Replay, r.callbackNonce)
    else if IsTerminal(r.status) then
      Still(r, TerminalLocked, r.callbackNonce)
    else if p.amount.Some? && r.id.amount.Some? && p.amount != r.id.amount then
      Plan(AmountMismatch, false, Mismatched, Some(Mismatched), r.status, None, Some(nonce), true,
           r.id.operationId, Some(OpHandoff), Some(Mismatched), true)
    else
      var next := NormalizeCallback(r.status, p);
      if next == r.status then
        Still(r, Processing, Some(nonce))
      else if !CanTransition(r.status, next) then
        Still(r, TerminalLocked, if r.callbackNonce.Some? then r.callbackNonce else Some(nonce))
      else if next == Confirmed then
        Plan(ConfirmedByCallback, true, Confirmed, Some(Confirmed), r.status,
             Some(Receipt(OrElse(p.externalTxnId, r.externalTxnId),
                          if r.id.amount.Some? && r.id.amount.value != 0.0 then r.id.amount else p.amount,
                          WireSucceeded)),
             Some(nonce), true, r.id.operationId, Some(OpExecuted), Some(Confirmed), true)
      else
        Plan(DispatchFailed, true, FailedDispatched, Some(FailedDispatched), r.status, None, Some(nonce), true,
             r.id.operationId, Some(OpExecuted), Some(FailedDispatched), true)
  }

  /** The plan's fields written to the record, `updated_at` aside. */
  function WritePlan(r: ExecutionRecord, plan: Plan, nonce: string, now: real): ExecutionRecord {
    r.(callbackNonce := if plan.bookNonce then Some(nonce) else r.callbackNonce,
       status := if plan.nextStatus.Some? then plan.nextStatus.value else r.status,
       receipt := if plan.receipt.Some? then plan.receipt else r.receipt,
       times := if plan.stampConfirmed then r.times.(confirmedAt := Some(now)) else r.times)
  }

  function WriteOperation(op: Operation, plan: Plan): Operation {
    if plan.operationStatus.Some? then
      op.(status := plan.operationStatus.value, result := plan.operationResult)
    else op
  }

  datatype Callback = Callback(nonce: string, payload: Payload, now: real)

  function Receive(r: ExecutionRecord, c: Callback): ExecutionRecord {
    WritePlan(r, MakePlan(r, c.nonce, c.payload), c.nonce, c.now)
  }

  /** Every status a callback plans is one the table allows; a planned move is written, audited and booked. */
  lemma PlannedMoveIsLegal(r: ExecutionRecord, nonce: string, p: Payload)
    ensures var plan := MakePlan(r, nonce, p);
            (plan.nextStatus.Some? ==> CanTransition(r.status, plan.nextStatus.value) && plan.bookNonce
                                       && plan.operationStatus.Some? && plan.operationResult == plan.nextStatus)
            && (plan.applied ==> plan.nextStatus.Some?)
            && (plan.nextStatus.None? ==> plan.operationStatus.None? && !plan.stampConfirmed && plan.receipt.None?)
  {
  }

  // ----- sequences of callbacks to one record -----

  function ReceiveAll(r: ExecutionRecord, cs: seq<Callback>): ExecutionRecord
    decreases |cs|
  {
    if cs == [] then r else ReceiveAll(Receive(r, cs[0]), cs[1..])
  }

  /** How many callbacks report `applied = True`. */
  function AppliedCount(r: ExecutionRecord, cs: seq<Callback>): nat
    decreases |cs|
  {
    if cs == [] then 0
    else (if MakePlan(r, cs[0].nonce, cs[0].payload).applied then 1 else 0)
         + AppliedCount(Receive(r, cs[0]), cs[1..])
  }

  /** How many audit rows they leave: one per plan with a next status. */
  function AuditCount(r: ExecutionRecord, cs: seq<Callback>): nat
    decreases |cs|
  {
    if cs == [] then 0
    else (if MakePlan(r, cs[0].nonce, cs[0].payload).nextStatus.Some? then 1 else 0)
         + AuditCount(Receive(r, cs[0]), cs[1..])
  }

  /** The statuses the record goes through, without repetitions. */
  function History(r: ExecutionRecord, cs: seq<Callback>): (h: seq<ExecutionStatus>)
    ensures |h| > 0 && h[0] == r.status
    decreases |cs|
  {
    if cs == [] then [r.status]
    else
      var rest := History(Receive(r, cs[0]), cs[1..]);
      if Receive(r, cs[0]).status == r.status then rest else [r.status] + rest
  }

  /** Callback moves left before the record is closed to callbacks. */
  function CallbackRank(s: ExecutionStatus): nat {
    if IsTerminal(s) then 0 else if s in {PendingSubmit, Submitted, FailedUncertain} then 2 else 1
  }

  /** One callback: it moves the record along the table or leaves its status, and is worth at most one more move. */
  lemma OneCallback(r: ExecutionRecord, c: Callback)
    ensures var q, plan := Receive(r, c), MakePlan(r, c.nonce, c.payload);
            && (plan.nextStatus.Some? <==> q.status != r.status)
            && (q.status != r.status ==>
                  CanTransition(r.status, q.status) && CallbackRank(q.status) < CallbackRank(r.status))
            && (plan.applied ==> q.status != r.status && (q.status == FailedDispatched || IsTerminal(q.status)))
            && (r.status == FailedDispatched || IsTerminal(r.status) ==>
                  !plan.applied && (q.status == r.status || IsTerminal(q.status)))
  {
    PlannedMoveIsLegal(r, c.nonce, c.payload);
  }

  /** Whatever the nonces, amounts and statuses: the record's history obeys the table, each status change has
      exactly one audit row, there are at most two of them, and at most one callback is applied. */
  lemma {:induction false} AnyCallbackSequence(r: ExecutionRecord, cs: seq<Callback>)
    ensures LegalHistory(History(r, cs))
    ensures History(r, cs)[|History(r, cs)| - 1] == ReceiveAll(r, cs).status
    ensures AuditCount(r, cs) == |History(r, cs)| - 1
    ensures AuditCount(r, cs) <= CallbackRank(r.status)
    ensures AppliedCount(r, cs) <= if r.status == FailedDispatched || IsTerminal(r.status) then 0 else 1
    decreases |cs|
  {
    if cs != [] {
      OneCallback(r, cs[0]);
      AnyCallbackSequence(Receive(r, cs[0]), cs[1..]);
    }
  }

  /** A terminal record ignores every callback. */
  lemma {:induction false} TerminalRecordIsClosed(r: ExecutionRecord, cs: seq<Callback>)
    requires IsTerminal(r.status)
    ensures ReceiveAll(r, cs) == r
    decreases |cs|
  {
    if cs != [] {
      TerminalRecordIsClosed(r, cs[1..]);
    }
  }

  /** Delivering the same callback any number of times has the effect of delivering it once. */
  lemma {:induction false} RedeliveryIsHarmless(r: ExecutionRecord, c: Callback, again: seq<Callback>)
    requires forall i :: 0 <= i < |again| ==> again[i].nonce == c.nonce && again[i].payload == c.payload
    ensures ReceiveAll(Receive(r, c), again) == Receive(r, c)
    ensures AppliedCount(Receive(r, c), again) == 0 && AuditCount(Receive(r, c), again) == 0
    decreases |again|
  {
    if again != [] {
      PlannedMoveIsLegal(r, c.nonce, c.payload);
      assert Receive(Receive(r, c), again[0]) == Receive(r, c);
      RedeliveryIsHarmless(r, c, again[1..]);
    }
  }
}
