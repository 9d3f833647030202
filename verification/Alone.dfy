/** A thread of the interleaving model that nobody disturbs: step by step it comes to what the completed call comes to
    (src/execution/engine.py). */
module Alone {
  import opened Wrappers
  import opened ExecutionTypes
  import opened CallbackPlan
  import opened ExecutionEffects
  import opened EngineSpec
  import opened Outcomes
  import Gateway
  import I = Interleaving

  /** The shared state, and where the thread stands. */
  type At = (I.World, I.Point)

  function Step(base: ExecutionRecord, a: At, ch: I.Choice): At {
    I.Act(base, a.0, a.1, ch)
  }

  /** `n` steps of one thread, with nothing in between; the outside makes one choice for all of them. */
  function Steps(base: ExecutionRecord, a: At, ch: I.Choice, n: nat): At
    decreases n
  {
    if n == 0 then a else Steps(base, Step(base, a, ch), ch, n - 1)
  }

  lemma {:induction false} StepsAdd(base: ExecutionRecord, a: At, ch: I.Choice, m: nat, n: nat)
    ensures Steps(base, a, ch, m + n) == Steps(base, Steps(base, a, ch, m), ch, n)
    decreases m
  {
    if m > 0 {
      StepsAdd(base, Step(base, a, ch), ch, m - 1, n);
    }
  }

  lemma OneStep(base: ExecutionRecord, a: At, ch: I.Choice)
    ensures Steps(base, a, ch, 1) == Step(base, a, ch)
  {
    assert Steps(base, Step(base, a, ch), ch, 0) == Step(base, a, ch);
  }

  lemma TwoSteps(base: ExecutionRecord, a: At, ch: I.Choice)
    ensures Steps(base, a, ch, 2) == Step(base, Step(base, a, ch), ch)
  {
    StepsAdd(base, a, ch, 1, 1);
    OneStep(base, a, ch);
    OneStep(base, Step(base, a, ch), ch);
  }

  lemma FourSteps(base: ExecutionRecord, a: At, ch: I.Choice)
    ensures Steps(base, a, ch, 4) == Step(base, Step(base, Step(base, Step(base, a, ch), ch), ch), ch)
  {
    StepsAdd(base, a, ch, 2, 2);
    TwoSteps(base, a, ch);
    TwoSteps(base, Step(base, Step(base, a, ch), ch), ch);
  }

  lemma ThreeSteps(base: ExecutionRecord, a: At, ch: I.Choice)
    ensures Steps(base, a, ch, 3) == Step(base, Step(base, Step(base, a, ch), ch), ch)
  {
    StepsAdd(base, a, ch, 2, 1);
    TwoSteps(base, a, ch);
    OneStep(base, Step(base, Step(base, a, ch), ch), ch);
  }

  /** The record of a world, if there is one, has this status, and the operation goes with it. */
  predicate Came(w: I.World, status: ExecutionStatus) {
    && w.record.Some? && w.record.value.status == status
    && w.operation == if status in {Mismatched, CompensationFailed, HumanHandoff} then OpHandoff else OpExecuted
  }

  function Reversal(ch: I.Choice): ExecutionStatus {
    if ch.reversed then Compensated else CompensationFailed
  }

  /** From the reversal on. */
  lemma ReversesAlone(base: ExecutionRecord, w: I.World, ch: I.Choice)
    requires w.record.Some?
    ensures var (v, q) := Steps(base, (w, I.Reversing), ch, 3);
            && Came(v, Reversal(ch)) && q == I.Finished(Some(w.record.value.id.executionId)) && v.submits == w.submits
            && v.reversals == w.reversals + 1
            && v.record.value.externalTxnId == w.record.value.externalTxnId && v.record.value.id == w.record.value.id
  {
    ThreeSteps(base, (w, I.Reversing), ch);
  }

  /** How an execution alone ends, by the provider's reply. */
  function Submission(ch: I.Choice): ExecutionStatus {
    match ch.reply
    case Accepted => Submitted
    case Unclear => FailedUncertain
    case Refused => Reversal(ch)
  }

  /** The record is created and claimed, and the provider has answered. */
  lemma ClaimsAlone(base: ExecutionRecord, w: I.World, ch: I.Choice)
    requires w.record.None? && base.status == PendingSubmit && base.attempts == 0
    ensures var r := base.(id := base.id.(executionId := ch.freshId), attempts := 1);
            Steps(base, (w, I.Looking), ch, 4)
            == (w.(record := Some(r), submits := w.submits + 1), I.Answered(ch.reply))
  {
    FourSteps(base, (w, I.Looking), ch);
  }

  /** An execution alone: one submission, and the record ends as the reply decides. */
  lemma ExecutesAlone(base: ExecutionRecord, w: I.World, ch: I.Choice)
    requires w.record.None? && base.status == PendingSubmit && base.attempts == 0
    ensures var (v, q) := Steps(base, (w, I.Looking), ch, 8);
            && Came(v, Submission(ch)) && q == I.Finished(Some(ch.freshId)) && v.submits == w.submits + 1
            && v.reversals == w.reversals + if ch.reply.Refused? then 1 else 0
  {
    StepsAdd(base, (w, I.Looking), ch, 4, 4);
    ClaimsAlone(base, w, ch);
    AnsweredAlone(base, Steps(base, (w, I.Looking), ch, 4).0, ch);
  }

  lemma AnsweredAlone(base: ExecutionRecord, w: I.World, ch: I.Choice)
    requires w.record.Some? && w.record.value.status == PendingSubmit
    ensures var (v, q) := Steps(base, (w, I.Answered(ch.reply)), ch, 4);
            && Came(v, Submission(ch)) && q == I.Finished(Some(w.record.value.id.executionId)) && v.submits == w.submits
            && v.reversals == w.reversals + if ch.reply.Refused? then 1 else 0
  {
    if ch.reply.Refused? {
      RefusedAlone(base, w, ch);
    } else {
      FourSteps(base, (w, I.Answered(ch.reply)), ch);
    }
  }

  lemma RefusedAlone(base: ExecutionRecord, w: I.World, ch: I.Choice)
    requires w.record.Some?
    ensures var (v, q) := Steps(base, (w, I.Answered(I.Refused)), ch, 4);
            && Came(v, Reversal(ch)) && q == I.Finished(Some(w.record.value.id.executionId)) && v.submits == w.submits
            && v.reversals == w.reversals + 1
  {
    StepsAdd(base, (w, I.Answered(I.Refused)), ch, 1, 3);
    OneStep(base, (w, I.Answered(I.Refused)), ch);
    ReversesAlone(base, Steps(base, (w, I.Answered(I.Refused)), ch, 1).0, ch);
  }

  /** The provider as the completed call sees it and as the steps see it. */
  predicate SameProvider(ch: I.Choice, env: SubmitEnv) {
    && ch.reply == (if env.submitFault != Gateway.Healthy then I.Unclear
                    else if env.status in {WireSucceeded, WireSuccess} then I.Accepted else I.Refused)
    && ch.reversed == (env.compensateFault == Gateway.Healthy)
  }

  /** So the steps of an execution nobody disturbs come to what the completed call does. */
  lemma ExecutionRefines(c: Config, base: ExecutionRecord, w: I.World, ch: I.Choice, l: Gateway.Ledger, env: SubmitEnv)
    requires w.record.None? && base.status == PendingSubmit && base.attempts == 0 && base.id.mode == Live
    requires base.externalTxnId.None? && base.receipt.None? && c.hasProvider && SameProvider(ch, env)
    requires (base.id.tenantId, base.id.idempotencyKey) !in l.txns
    ensures var v := Steps(base, (w, I.Looking), ch, 8).0;
            v.record.Some? && v.record.value.status == ExecuteEffect(c, base, l, env).record.status
            && v.operation == OperationStatusFor(v.record.value.status)
  {
    ExecutesAlone(base, w, ch);
    LiveEndsByRow(c, base, l, env);
  }

  /** The sweep has settled the record as the answer says, and asked for its money back exactly if it closed it so. */
  predicate SettledAs(w: I.World, ch: I.Choice, v: I.World, q: I.Point)
    requires w.record.Some?
  {
    var known := w.record.value.externalTxnId.Some?;
    && q.Finished? && v.record.Some? && Came(v, v.record.value.status) && v.submits == w.submits
    && EndsAs(known && ch.answer == I.SaysDone, known && ch.answer == I.SaysFailed, w.record.value, v.record.value)
    && (v.record.value.status in {Compensated, CompensationFailed} ==> v.record.value.status == Reversal(ch))
    && v.reversals == w.reversals + if v.record.value.status in {Compensated, CompensationFailed} then 1 else 0
  }

  /** A sweep alone, with one record to settle: it ends as the provider's answer decides. */
  lemma ReconcilesAlone(base: ExecutionRecord, w: I.World, ch: I.Choice)
    requires w.record.Some? && w.record.value.status in {Submitted, FailedUncertain, Reconciling, FailedDispatched}
    ensures var (v, q) := Steps(base, (w, I.Listing), ch, 6); SettledAs(w, ch, v, q)
  {
    StepsAdd(base, (w, I.Listing), ch, 2, 4);
    TwoSteps(base, (w, I.Listing), ch);
    if w.record.value.externalTxnId.Some? && ch.answer == I.SaysFailed {
      FailsAlone(base, w, ch);
    } else {
      JudgesAlone(base, w, ch);
    }
  }

  /** A verdict written, and the operation brought in line. */
  lemma WritesAlone(base: ExecutionRecord, w: I.World, ch: I.Choice, p: I.Point, target: ExecutionStatus)
    requires w.record.Some? && target !in {PendingSubmit, Reconciled}
    requires p == I.Judging(target) || (p == I.HandingOff && target == HumanHandoff)
    ensures var (v, q) := Steps(base, (w, p), ch, 4);
            && Came(v, target) && q.Finished? && v.submits == w.submits && v.reversals == w.reversals
            && v.record.value.externalTxnId == w.record.value.externalTxnId && v.record.value.id == w.record.value.id
  {
    FourSteps(base, (w, p), ch);
  }

  /** An answer that moves no money. */
  lemma JudgesAlone(base: ExecutionRecord, w: I.World, ch: I.Choice)
    requires w.record.Some? && w.record.value.status in {Submitted, FailedUncertain, Reconciling, FailedDispatched}
    requires w.record.value.externalTxnId.None? || ch.answer != I.SaysFailed
    ensures var (v, q) := Steps(base, (w, I.Judge(w.record.value, ch.answer)), ch, 4); SettledAs(w, ch, v, q)
  {
    var p := I.Judge(w.record.value, ch.answer);
    WritesAlone(base, w, ch, p, p.target);
  }

  /** An explicit failure: the money is asked back, unless the record is in RECONCILING. */
  lemma FailsAlone(base: ExecutionRecord, w: I.World, ch: I.Choice)
    requires w.record.Some? && w.record.value.status in {Submitted, FailedUncertain, Reconciling, FailedDispatched}
    requires w.record.value.externalTxnId.Some? && ch.answer == I.SaysFailed
    ensures var (v, q) := Steps(base, (w, I.Judge(w.record.value, ch.answer)), ch, 4); SettledAs(w, ch, v, q)
  {
    match w.record.value.status {
      case Reconciling => WritesAlone(base, w, ch, I.HandingOff, HumanHandoff);
      case FailedDispatched => ReversesOn(base, w, ch);
      case _ => NormalisesAlone(base, w, ch);
    }
  }

  lemma ReversesOn(base: ExecutionRecord, w: I.World, ch: I.Choice)
    requires w.record.Some?
    ensures var (v, q) := Steps(base, (w, I.Reversing), ch, 4);
            && Came(v, Reversal(ch)) && q.Finished? && v.submits == w.submits && v.reversals == w.reversals + 1
            && v.record.value.externalTxnId == w.record.value.externalTxnId && v.record.value.id == w.record.value.id
  {
    StepsAdd(base, (w, I.Reversing), ch, 3, 1);
    ReversesAlone(base, w, ch);
    OneStep(base, Steps(base, (w, I.Reversing), ch, 3), ch);
  }

  lemma NormalisesAlone(base: ExecutionRecord, w: I.World, ch: I.Choice)
    requires w.record.Some?
    ensures var (v, q) := Steps(base, (w, I.Normalising), ch, 4);
            && Came(v, Reversal(ch)) && q.Finished? && v.submits == w.submits && v.reversals == w.reversals + 1
            && v.record.value.externalTxnId == w.record.value.externalTxnId && v.record.value.id == w.record.value.id
  {
    StepsAdd(base, (w, I.Normalising), ch, 1, 3);
    OneStep(base, (w, I.Normalising), ch);
    ReversesAlone(base, Steps(base, (w, I.Normalising), ch, 1).0, ch);
  }

  /** The record has come to what wire words, amounts and nonce decide. */
  predicate CalledBack(w: I.World, ch: I.Choice, b: CallbackBody, v: I.World, q: I.Point)
    requires w.record.Some?
  {
    var r := w.record.value;
    && q.Finished? && v.record.Some? && v.submits == w.submits
    && v.record.value.status == (if ConfirmsIt(r, b) then Confirmed else if Disagrees(r, b) then Mismatched
                                 else if FailsIt(r, b) then Reversal(ch) else r.status)
    && (if ConfirmsIt(r, b) || Disagrees(r, b) || FailsIt(r, b) then Came(v, v.record.value.status)
        else v.operation == w.operation)
    && v.reversals == w.reversals + if FailsIt(r, b) then 1 else 0
  }

  /** A callback alone. */
  lemma CallsBackAlone(base: ExecutionRecord, w: I.World, ch: I.Choice, b: CallbackBody)
    requires w.record.Some?
    ensures var (v, q) := Steps(base, (w, I.Calling(b.nonce, b.payload)), ch, 5); CalledBack(w, ch, b, v, q)
  {
    var p := I.Calling(b.nonce, b.payload);
    var a := Step(base, (w, p), ch);
    ReceivesAlone(base, w, ch, b);
    StepsAdd(base, (w, p), ch, 1, 4);
    OneStep(base, (w, p), ch);
    if FailsIt(w.record.value, b) {
      ReportedAlone(base, a.0, ch);
    } else {
      FourSteps(base, a, ch);
    }
  }

  /** A reported failure, settled after the atomic step. */
  lemma ReportedAlone(base: ExecutionRecord, w: I.World, ch: I.Choice)
    requires w.record.Some? && w.record.value.status == FailedDispatched
    ensures var (v, q) := Steps(base, (w, I.ReadingBack), ch, 4);
            Came(v, Reversal(ch)) && q.Finished? && v.submits == w.submits && v.reversals == w.reversals + 1
  {
    StepsAdd(base, (w, I.ReadingBack), ch, 1, 3);
    OneStep(base, (w, I.ReadingBack), ch);
    ReversesAlone(base, w, ch);
  }

  /** The atomic step of a callback. */
  lemma ReceivesAlone(base: ExecutionRecord, w: I.World, ch: I.Choice, b: CallbackBody)
    requires w.record.Some?
    ensures var r, a := w.record.value, Step(base, (w, I.Calling(b.nonce, b.payload)), ch);
            && a.0.record.Some? && a.0.submits == w.submits && a.0.reversals == w.reversals
            && a.1 == (if FailsIt(r, b) then I.ReadingBack else I.Finished(None))
            && a.0.record.value.status == (if ConfirmsIt(r, b) then Confirmed else if Disagrees(r, b) then Mismatched
                                           else if FailsIt(r, b) then FailedDispatched else r.status)
            && (if ConfirmsIt(r, b) || Disagrees(r, b) then Came(a.0, a.0.record.value.status)
                else FailsIt(r, b) || a.0.operation == w.operation)
  {
    PlanIsPlain(w.record.value, b);
    PlannedMoveIsLegal(w.record.value, b.nonce, b.payload);
  }
}
