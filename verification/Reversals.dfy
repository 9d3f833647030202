/** The reversal requests of the interleaved executions: how many there are, and what becomes of a record whose money
    was asked back (src/execution/engine.py `_settle_after_dispatch_failure`). */
module Reversals {
  import opened Wrappers
  import opened ExecutionTypes
  import opened ExecutionEffects
  import opened Interleaving

  // ----- at most one reversal -----

  /** No sweeps that are told of failures unless every submission is unclear, and no failure reports unless every one is
      accepted. */
  predicate Single(env: Env) {
    && (!env.reconcilers || SaysFailed !in env.answers || env.replies <= {Unclear})
    && (ReportsFailure !in env.reports || env.replies <= {Accepted})
  }

  /** Settled for a failure, or closed for good other than as confirmed. */
  predicate Down(s: ExecutionStatus) {
    s in {FailedDispatched, Compensated, CompensationFailed, Mismatched, HumanHandoff}
  }

  /** No failure report moves the record any more. */
  predicate Deaf(s: ExecutionStatus) {
    Down(s) || s == Confirmed
  }

  /** A thread that may still come to request a reversal. */
  predicate Loaded(env: Env, t: Thread) {
    t.at in {ReadingBack, Reversing} || (Refused in env.replies && (t.at == Submitting || t.at.Answered?))
  }

  predicate Tame(env: Env, record: Option<ExecutionRecord>, reversals: nat, t: Thread) {
    && !(t.at in {Normalising, HandingOff})
    && (t.at.Answered? ==> t.at.reply in env.replies)
    && (t.at.Calling? ==> ReportOf(env.amount, t.at.payload) in env.reports)
    && (t.at == Listing || t.at.Querying? || t.at.Judging? ==> env.reconcilers)
    && (t.at.Querying? && SaysFailed in env.answers ==> t.at.snapshot.externalTxnId.None?)
    && (t.at.Judging? ==> t.at.target in {Confirmed, Mismatched})
    && (Loaded(env, t) ==> reversals == 0)
    && (t.at == ReadingBack ==> ReportsFailure in env.reports)
    && (t.at == Reversing || t.at.Closing? ==> ReportsFailure in env.reports || (t.executor && Refused in env.replies))
    && (ReportsFailure in env.reports && (t.at in {ReadingBack, Reversing} || t.at.Closing?) ==>
          record.Some? && Deaf(record.value.status))
  }

  /** What concerns record and count alone. */
  predicate FewReversals(env: Env, w: World) {
    && w.reversals <= 1
    && (w.record.Some? ==> w.record.value.id.amount == env.amount)
    && (w.record.Some? && env.reconcilers && SaysFailed in env.answers ==> w.record.value.externalTxnId.None?)
    && (Refused in env.replies && (w.record.None? || w.record.value.attempts == 0) ==> w.reversals == 0)
    && (ReportsFailure in env.reports && w.reversals > 0 ==> w.record.Some? && Deaf(w.record.value.status))
  }

  ghost predicate SingleWorld(env: Env, w: World) {
    && OneSubmission(w) && FewReversals(env, w)
    && (forall i :: 0 <= i < |w.threads| ==> Tame(env, w.record, w.reversals, w.threads[i]))
    && (forall i, j :: 0 <= i < j < |w.threads| ==> !Loaded(env, w.threads[i]) || !Loaded(env, w.threads[j]))
  }

  /** An executor about to win the claim. */
  predicate MayClaim(w: World, t: Thread) {
    t.at == Claiming && w.record.Some? && w.record.value.attempts == 0
  }

  /** What concerns the record, after the step of one thread. */
  lemma FewStayFew(env: Env, base: ExecutionRecord, w: World, t: Thread, ch: Choice)
    requires Single(env) && WellFormed(env, base) && Allowed(env, ch)
    requires InPlace(w.record, t) && FewReversals(env, w) && Tame(env, w.record, w.reversals, t)
    requires Holder(t) ==> w.record.Some? && w.record.value.attempts > 0
    ensures FewReversals(env, Act(base, w, t.at, ch).0)
  {
    if w.record.Some? && t.at.Calling? {
      ReportDecides(w.record.value, t.at.nonce, t.at.payload);
    }
  }

  lemma TameAct(env: Env, base: ExecutionRecord, w: World, t: Thread, ch: Choice)
    requires Single(env) && WellFormed(env, base) && Allowed(env, ch)
    requires InPlace(w.record, t) && FewReversals(env, w) && Tame(env, w.record, w.reversals, t)
    ensures var (w', q) := Act(base, w, t.at, ch); Tame(env, w'.record, w'.reversals, t.(at := q))
  {
    if w.record.Some? && t.at.Calling? {
      ReportDecides(w.record.value, t.at.nonce, t.at.payload);
    }
  }

  lemma OthersStayTame(env: Env, base: ExecutionRecord, w: World, t: Thread, o: Thread, ch: Choice)
    requires Single(env) && WellFormed(env, base) && Allowed(env, ch)
    requires InPlace(w.record, t) && FewReversals(env, w) && Tame(env, w.record, w.reversals, t)
    requires InPlace(w.record, o) && Tame(env, w.record, w.reversals, o)
    requires !(Holder(t) && Holder(o)) && !(Loaded(env, t) && Loaded(env, o))
    requires MayClaim(w, t) ==> !Holder(o)
    ensures var (w', q) := Act(base, w, t.at, ch);
            Tame(env, w'.record, w'.reversals, o) && !(Loaded(env, t.(at := q)) && Loaded(env, o))
  {
    if w.record.Some? && t.at.Calling? {
      ReportDecides(w.record.value, t.at.nonce, t.at.payload);
    }
  }

  lemma StepKeepsSingle(env: Env, base: ExecutionRecord, w: World, e: Event)
    requires Single(env) && WellFormed(env, base) && SingleWorld(env, w) && Interleaving.Enabled(env, w, e)
    ensures SingleWorld(env, Next(base, w, e))
  {
    var t, w' := w.threads[e.thread], Next(base, w, e);
    StepKeepsOneSubmission(env, base, w, e);
    FewStayFew(env, base, w, t, e.choice);
    TameAct(env, base, w, t, e.choice);
    forall i | 0 <= i < |w.threads| && i != e.thread
      ensures Tame(env, w'.record, w'.reversals, w'.threads[i])
      ensures !(Loaded(env, w'.threads[e.thread]) && Loaded(env, w'.threads[i]))
    {
      OthersStayTame(env, base, w, t, w.threads[i], e.choice);
    }
  }

  lemma {:induction false} RunStaysSingle(env: Env, base: ExecutionRecord, ws: seq<World>, es: seq<Event>)
    requires Single(env) && WellFormed(env, base) && Run(env, base, ws, es)
    ensures SingleWorld(env, ws[|es|])
  {
    if es != [] {
      var n := |es| - 1;
      RunStaysSingle(env, base, ws[..n + 1], es[..n]);
      StepKeepsSingle(env, base, ws[n], es[n]);
    }
  }

  /** Two threads about to ask for a reversal both do. */
  lemma BothAsk(env: Env, base: ExecutionRecord, reach: iset<World>, v: World, i: nat, j: nat, ch: Choice)
    returns (w: World)
    requires Closed(env, base, reach) && v in reach && Allowed(env, ch) && v.record.Some?
    requires i < |v.threads| && j < |v.threads| && i != j
    requires v.threads[i].at == Reversing && v.threads[j].at == Reversing
    ensures w in reach && w.reversals >= 2
  {
    w := Turn(env, base, reach, v, i, ch, Closing(ch.reversed), v.record.value.status, v.operation);
    w := Turn(env, base, reach, w, j, ch, Closing(ch.reversed), w.record.value.status, w.operation);
  }

  lemma SweepsBothReverse(env: Env, base: ExecutionRecord, reach: iset<World>, ch: Choice) returns (w: World)
    requires Closed(env, base, reach) && WellFormed(env, base) && Allowed(env, ch) && env.reconcilers
    requires ch.reply == Accepted && ch.answer == SaysFailed
    ensures w in reach && w.reversals >= 2
  {
    w := ReachWritten(env, base, reach, [Executing(), Sweeping(), Sweeping()], ch);
    w := SweepAsks(env, base, reach, w, 1, ch);
    w := SweepAsks(env, base, reach, w, 2, ch);
    w := BothNormalise(env, base, reach, w, ch);
    w := BothAsk(env, base, reach, w, 1, 2, ch);
  }

  lemma BothNormalise(env: Env, base: ExecutionRecord, reach: iset<World>, v: World, ch: Choice) returns (w: World)
    requires Closed(env, base, reach) && v in reach && Allowed(env, ch) && v.record.Some?
    requires |v.threads| == 3 && v.threads[1].at == Normalising && v.threads[2].at == Normalising
    ensures w in reach && w.record.Some? && |w.threads| == 3
    ensures w.threads[1].at == Reversing && w.threads[2].at == Reversing
  {
    w := Turn(env, base, reach, v, 1, ch, Reversing, FailedDispatched, v.operation);
    w := Turn(env, base, reach, w, 2, ch, Reversing, FailedDispatched, w.operation);
  }

  lemma SweepReversesToo(env: Env, base: ExecutionRecord, reach: iset<World>, ch: Choice) returns (w: World)
    requires Closed(env, base, reach) && WellFormed(env, base) && Allowed(env, ch) && env.reconcilers
    requires ch.reply == Refused && ch.answer == SaysFailed
    ensures w in reach && w.reversals >= 2
  {
    w := ReachWritten(env, base, reach, [Executing(), Sweeping()], ch);
    w := SweepAsks(env, base, reach, w, 1, ch);
    w := BothAsk(env, base, reach, w, 0, 1, ch);
  }

  lemma CallbackReversesToo(env: Env, base: ExecutionRecord, reach: iset<World>, ch: Choice) returns (w: World)
    requires Closed(env, base, reach) && WellFormed(env, base) && Allowed(env, ch)
    requires ch.reply == Refused && ReportsFailure in env.reports
    ensures w in reach && w.reversals >= 2
  {
    var threads := [Executing(), CallingBack("n", ReportsFailure, env.amount)];
    ReachReplied(env, base, reach, threads, ch);
    w := CallbackMoves(env, base, reach, Replied(base, threads, ch), 1, ch, "n", ReportsFailure);
    w := BothReverse(env, base, reach, w, ch);
    w := BothAsk(env, base, reach, w, 0, 1, ch);
  }

  /** The pending reply is unclear; a callback's failure has been settled or is being settled; another callback waits.
      */
  predicate ReplyOutstanding(env: Env, w: World, settler: Point, report: Report)
    requires report != AmountDiffers
  {
    && w.record.Some? && w.record.value.status in {FailedDispatched, Compensated}
    && w.record.value.id.amount == env.amount && w.record.value.callbackNonce == Some("n") && w.reversals == 1
    && |w.threads| == 3 && w.threads[0].at == Answered(Unclear) && w.threads[1].at == settler
    && w.threads[2] == CallingBack("m", report, env.amount)
  }

  lemma ReplyLate(env: Env, base: ExecutionRecord, reach: iset<World>, ch: Choice, report: Report) returns (w: World)
    requires Closed(env, base, reach) && WellFormed(env, base) && Allowed(env, ch) && ch.reply == Unclear
    requires ReportsFailure in env.reports && report in env.reports && report != AmountDiffers
    ensures w in reach && ReplyOutstanding(env, w, Closing(true), report)
    ensures w.record.value.status == FailedDispatched
  {
    var threads :=
      [Executing(), CallingBack("n", ReportsFailure, env.amount), CallingBack("m", report, env.amount)];
    ReachReplied(env, base, reach, threads, ch);
    w := FailureAsksBack(env, base, reach, Replied(base, threads, ch), ch.(reversed := true));
  }

  /** A callback reports failure for the pending record, and asks for the money back. */
  lemma FailureAsksBack(env: Env, base: ExecutionRecord, reach: iset<World>, v: World, ch: Choice) returns (w: World)
    requires Closed(env, base, reach) && v in reach && Allowed(env, ch) && ch.reversed
    requires v.record.Some? && v.record.value.status == PendingSubmit && v.record.value.id.amount == env.amount
    requires v.record.value.callbackNonce.None? && v.reversals == 0
    requires |v.threads| == 3 && v.threads[1] == CallingBack("n", ReportsFailure, env.amount)
    ensures w in reach && w.record.Some? && w.record.value.status == FailedDispatched
    ensures w.record.value.id.amount == env.amount && w.record.value.callbackNonce == Some("n") && w.reversals == 1
    ensures |w.threads| == 3 && w.threads[0] == v.threads[0] && w.threads[2] == v.threads[2]
    ensures w.threads[1].at == Closing(true)
  {
    w := CallbackMoves(env, base, reach, v, 1, ch, "n", ReportsFailure);
    w := SettlerAsks(env, base, reach, w, 1, ch);
  }

  /** The unclear reply reopens the record. */
  lemma UnclearReopens(env: Env, base: ExecutionRecord, reach: iset<World>, v: World, ch: Choice,
                       settler: Point, report: Report)
    returns (w: World)
    requires Closed(env, base, reach) && v in reach && Allowed(env, ch)
    requires report != AmountDiffers && ReplyOutstanding(env, v, settler, report)
    ensures w in reach && w.record.Some? && w.record.value.status == FailedUncertain && w.reversals == 1
    ensures w.record.value.id == v.record.value.id && w.record.value.callbackNonce == Some("n")
    ensures |w.threads| == 3 && w.threads[0].at == Recording(FailedUncertain)
    ensures w.threads[1] == v.threads[1] && w.threads[2] == v.threads[2]
  {
    w := Turn(env, base, reach, v, 0, ch, Recording(FailedUncertain), FailedUncertain, v.operation);
  }

  lemma CallbacksBothReverse(env: Env, base: ExecutionRecord, reach: iset<World>, ch: Choice) returns (w: World)
    requires Closed(env, base, reach) && WellFormed(env, base) && Allowed(env, ch) && !ch.reversed
    requires ch.reply == Unclear && ReportsFailure in env.reports
    ensures w in reach && w.reversals >= 2
  {
    w := ReplyLate(env, base, reach, ch, ReportsFailure);
    w := UnclearReopens(env, base, reach, w, ch, Closing(true), ReportsFailure);
    w := FailureAsksAgain(env, base, reach, w, ch);
  }

  lemma FailureAsksAgain(env: Env, base: ExecutionRecord, reach: iset<World>, v: World, ch: Choice) returns (w: World)
    requires Closed(env, base, reach) && v in reach && Allowed(env, ch) && !ch.reversed
    requires v.record.Some? && v.record.value.status == FailedUncertain && v.record.value.id.amount == env.amount
    requires v.record.value.callbackNonce == Some("n")
    requires |v.threads| == 3 && v.threads[2] == CallingBack("m", ReportsFailure, env.amount)
    ensures w in reach && w.reversals == v.reversals + 1
  {
    w := CallbackMoves(env, base, reach, v, 2, ch, "m", ReportsFailure);
    w := SettlerAsks(env, base, reach, w, 2, ch);
  }

  /** In every interleaving a reversal is requested at most once, exactly when no sweep is told of a failure, unless
      every submission is unclear, and no callback reports one, unless every submission is accepted. */
  lemma OneReversalExactlyWhenSingle(env: Env, base: ExecutionRecord)
    requires WellFormed(env, base)
    ensures (forall w :: Reachable(env, base, w) ==> w.reversals <= 1) <==> Single(env)
  {
    if Single(env) {
      forall w | Reachable(env, base, w)
        ensures w.reversals <= 1
      {
        var ws, es :| Run(env, base, ws, es) && ws[|ws| - 1] == w;
        RunStaysSingle(env, base, ws, es);
      }
    } else {
      SomeRunReversesTwice(env, base);
    }
  }

  lemma SomeRunReversesTwice(env: Env, base: ExecutionRecord)
    requires WellFormed(env, base) && !Single(env)
    ensures exists w :: Reachable(env, base, w) && w.reversals > 1
  {
    var reach := ReachableIsClosed(env, base);
    var w: World;
    if env.reconcilers && SaysFailed in env.answers && !(env.replies <= {Unclear}) {
      var k :| k in env.replies && k != Unclear;
      if k == Accepted {
        w := SweepsBothReverse(env, base, reach, Picking(k, SaysFailed));
      } else {
        w := SweepReversesToo(env, base, reach, Picking(k, SaysFailed));
      }
    } else {
      var k, a :| k in env.replies && k != Accepted && a in env.answers;
      if k == Refused {
        w := CallbackReversesToo(env, base, reach, Picking(k, a));
      } else {
        w := CallbacksBothReverse(env, base, reach, Picking(k, a));
      }
    }
  }

  // ----- confirmed and asked back -----

  /** The record is not confirmed if its money was asked back. */
  predicate Kept(w: World) {
    w.reversals > 0 ==> w.record.Some? && w.record.value.status != Confirmed
  }

  /** A sweep may confirm an accepted submission. */
  predicate SweepConfirmsEver(env: Env) {
    env.reconcilers && Accepted in env.replies && SaysDone in env.answers
  }

  /** Where a sweep may confirm, neither a query nor a callback tells of a failure; and where replies may be unclear,
      callbacks do not report both failure and success. */
  predicate Decided(env: Env) {
    && !(SweepConfirmsEver(env) && (SaysFailed in env.answers || ReportsFailure in env.reports))
    && !(Unclear in env.replies && ReportsFailure in env.reports && ReportsSuccess in env.reports)
  }

  /** Where a record may be confirmed at all while another is asked back, what was once settled stays so. */
  predicate Firm(env: Env) {
    ReportsSuccess in env.reports || ReportsFailure !in env.reports
  }

  /** No callback will confirm this record any more, or none confirms at all; and who reported the failure is known. */
  predicate Turned(env: Env, record: Option<ExecutionRecord>) {
    && record.Some?
    && (Firm(env) ==> Down(record.value.status))
    && (ReportsFailure in env.reports || record.value.externalTxnId.Some?)
  }

  /** A sweep that is about to confirm the record, or may be. */
  predicate Confirming(env: Env, t: Thread) {
    || t.at == Judging(Confirmed)
    || (t.at.Querying? && SaysDone in env.answers && t.at.snapshot.externalTxnId.Some?
        && CanTransition(t.at.snapshot.status, Confirmed))
  }

  predicate Asking(t: Thread) {
    t.at == Reversing || t.at.Closing?
  }

  predicate Steady(env: Env, record: Option<ExecutionRecord>, reversals: nat, t: Thread) {
    && (t.at.Answered? ==> t.at.reply in env.replies)
    && (t.at.Calling? ==> ReportOf(env.amount, t.at.payload) in env.reports)
    && (t.at == Listing || t.at.Querying? || t.at.Judging? ==> env.reconcilers)
    && ((t.at == Submitting || t.at.Answered?) && record.Some? ==> record.value.externalTxnId.None?)
    && (t.at.Querying? && t.at.snapshot.externalTxnId.Some? ==>
          && record.Some? && record.value.externalTxnId.Some?
          && (t.at.snapshot.status == FailedDispatched && SaysFailed in env.answers && Firm(env) ==>
                Down(record.value.status)))
    && (Confirming(env, t) ==>
          SweepConfirmsEver(env) && record.Some? && record.value.externalTxnId.Some? && reversals == 0)
    && (t.at.Judging? ==> t.at.target in {Confirmed, Mismatched})
    && (t.at == ReadingBack ==> ReportsFailure in env.reports)
    && (t.at == Normalising ==>
          && (ReportsFailure in env.reports || (record.Some? && record.value.externalTxnId.Some?))
          && (ReportsFailure in env.reports || SaysFailed in env.answers))
    && (Asking(t) ==> Turned(env, record))
  }

  /** What concerns record and count alone. */
  predicate FirmRecord(env: Env, w: World) {
    && (w.reversals > 0 ==> Turned(env, w.record))
    && (w.record.Some? ==>
          && w.record.value.id.amount == env.amount
          && (!Firm(env) ==> w.record.value.status != Confirmed)
          && (Accepted !in env.replies && w.record.value.externalTxnId.Some? ==> Down(w.record.value.status))
          && (w.record.value.attempts == 0 ==> w.record.value.externalTxnId.None?))
  }

  ghost predicate DecidedWorld(env: Env, w: World) {
    && OneSubmission(w) && FirmRecord(env, w)
    && (forall i :: 0 <= i < |w.threads| ==> Steady(env, w.record, w.reversals, w.threads[i]))
    && (forall i, j :: 0 <= i < |w.threads| && 0 <= j < |w.threads| ==>
          !Confirming(env, w.threads[i]) || !Asking(w.threads[j]))
  }

  lemma RecordStaysFirm(env: Env, base: ExecutionRecord, w: World, t: Thread, ch: Choice)
    requires Decided(env) && WellFormed(env, base) && Allowed(env, ch)
    requires InPlace(w.record, t) && FirmRecord(env, w) && Steady(env, w.record, w.reversals, t)
    requires Holder(t) ==> w.record.Some? && w.record.value.attempts > 0
    ensures FirmRecord(env, Act(base, w, t.at, ch).0)
  {
    if w.record.Some? && t.at.Calling? {
      ReportDecides(w.record.value, t.at.nonce, t.at.payload);
    }
  }

  lemma SteadyReceiving(env: Env, base: ExecutionRecord, w: World, t: Thread, ch: Choice)
    requires Decided(env) && WellFormed(env, base) && Allowed(env, ch)
    requires InPlace(w.record, t) && FirmRecord(env, w) && Steady(env, w.record, w.reversals, t)
    requires w.record.Some? && t.at.Calling?
    ensures var (w', q) := Receiving(w, t.at.nonce, t.at.payload, ch.now);
            Steady(env, w'.record, w'.reversals, t.(at := q))
  {
    ReportDecides(w.record.value, t.at.nonce, t.at.payload);
  }

  lemma SteadySweeping(env: Env, base: ExecutionRecord, w: World, t: Thread, ch: Choice)
    requires Decided(env) && WellFormed(env, base) && Allowed(env, ch)
    requires InPlace(w.record, t) && FirmRecord(env, w) && Steady(env, w.record, w.reversals, t)
    requires w.record.Some? && (t.at == Listing || t.at.Querying?)
    ensures var (w', q) := Act(base, w, t.at, ch); Steady(env, w'.record, w'.reversals, t.(at := q))
  {
  }

  predicate Writing(p: Point) {
    p in {ReadingBack, Normalising, Reversing} || p.Answered? || p.Closing? || p.Judging?
  }

  lemma SteadyWriting(env: Env, base: ExecutionRecord, w: World, t: Thread, ch: Choice)
    requires Decided(env) && WellFormed(env, base) && Allowed(env, ch)
    requires InPlace(w.record, t) && FirmRecord(env, w) && Steady(env, w.record, w.reversals, t)
    requires w.record.Some? && Writing(t.at)
    ensures var (w', q) := Act(base, w, t.at, ch); Steady(env, w'.record, w'.reversals, t.(at := q))
  {
  }

  lemma SteadyAct(env: Env, base: ExecutionRecord, w: World, t: Thread, ch: Choice)
    requires Decided(env) && WellFormed(env, base) && Allowed(env, ch)
    requires InPlace(w.record, t) && FirmRecord(env, w) && Steady(env, w.record, w.reversals, t)
    ensures var (w', q) := Act(base, w, t.at, ch); Steady(env, w'.record, w'.reversals, t.(at := q))
  {
    if w.record.Some? && t.at.Calling? {
      SteadyReceiving(env, base, w, t, ch);
    } else if w.record.Some? && (t.at == Listing || t.at.Querying?) {
      SteadySweeping(env, base, w, t, ch);
    } else if w.record.Some? && Writing(t.at) {
      SteadyWriting(env, base, w, t, ch);
    }
  }

  lemma OthersStaySteady(env: Env, base: ExecutionRecord, w: World, t: Thread, o: Thread, ch: Choice)
    requires Decided(env) && WellFormed(env, base) && Allowed(env, ch)
    requires InPlace(w.record, t) && FirmRecord(env, w) && Steady(env, w.record, w.reversals, t)
    requires InPlace(w.record, o) && Steady(env, w.record, w.reversals, o) && !(Holder(t) && Holder(o))
    requires !(Confirming(env, t) && Asking(o)) && !(Confirming(env, o) && Asking(t))
    ensures Steady(env, Act(base, w, t.at, ch).0.record, Act(base, w, t.at, ch).0.reversals, o)
  {
    if w.record.Some? && t.at.Calling? {
      ReportDecides(w.record.value, t.at.nonce, t.at.payload);
    }
  }

  /** A thread that comes to confirm finds none asking, and one that comes to ask finds none confirming. */
  lemma ConfirmOrAsk(env: Env, base: ExecutionRecord, w: World, t: Thread, o: Thread, ch: Choice)
    requires Decided(env) && WellFormed(env, base) && Allowed(env, ch)
    requires InPlace(w.record, t) && FirmRecord(env, w) && Steady(env, w.record, w.reversals, t)
    requires InPlace(w.record, o) && Steady(env, w.record, w.reversals, o)
    requires !(Confirming(env, t) && Asking(o)) && !(Confirming(env, o) && Asking(t))
    ensures var t' := t.(at := Act(base, w, t.at, ch).1);
            !(Confirming(env, t') && Asking(o)) && !(Confirming(env, o) && Asking(t'))
  {
  }

  lemma StepKeepsDecided(env: Env, base: ExecutionRecord, w: World, e: Event)
    requires Decided(env) && WellFormed(env, base) && DecidedWorld(env, w) && Interleaving.Enabled(env, w, e)
    ensures DecidedWorld(env, Next(base, w, e))
  {
    var t, w' := w.threads[e.thread], Next(base, w, e);
    StepKeepsOneSubmission(env, base, w, e);
    RecordStaysFirm(env, base, w, t, e.choice);
    SteadyAct(env, base, w, t, e.choice);
    forall i | 0 <= i < |w.threads| && i != e.thread
      ensures Steady(env, w'.record, w'.reversals, w'.threads[i])
      ensures !(Confirming(env, w'.threads[e.thread]) && Asking(w'.threads[i]))
      ensures !(Confirming(env, w'.threads[i]) && Asking(w'.threads[e.thread]))
    {
      OthersStaySteady(env, base, w, t, w.threads[i], e.choice);
      ConfirmOrAsk(env, base, w, t, w.threads[i], e.choice);
    }
  }

  lemma {:induction false} RunStaysDecided(env: Env, base: ExecutionRecord, ws: seq<World>, es: seq<Event>)
    requires Decided(env) && WellFormed(env, base) && Run(env, base, ws, es)
    ensures DecidedWorld(env, ws[|es|])
  {
    if es != [] {
      var n := |es| - 1;
      RunStaysDecided(env, base, ws[..n + 1], es[..n]);
      StepKeepsDecided(env, base, ws[n], es[n]);
    }
  }

  /** A record that is submitted, its operation told, with a sweep about to confirm it. */
  predicate AboutToConfirm(w: World) {
    && w.record.Some? && w.record.value.status == Submitted && w.record.value.externalTxnId.Some?
    && |w.threads| == 3 && w.threads[0].at.Finished? && w.threads[1].at == Judging(Confirmed)
  }

  lemma SweepFindsDone(env: Env, base: ExecutionRecord, reach: iset<World>, other: Thread, ch: Choice)
    returns (w: World)
    requires Closed(env, base, reach) && WellFormed(env, base) && Allowed(env, ch) && env.reconcilers
    requires ch.reply == Accepted && ch.answer == SaysDone && Arrives(env, other)
    ensures w in reach && AboutToConfirm(w) && w.threads[2] == other
    ensures w.record.value.id.amount == env.amount && w.record.value.callbackNonce.None?
  {
    w := ReachWritten(env, base, reach, [Executing(), Sweeping(), other], ch);
    w := Turn(env, base, reach, w, 0, ch, Finished(Some(w.record.value.id.executionId)), Submitted, OpExecuted);
    w := SweepAsks(env, base, reach, w, 1, ch);
  }

  /** One sweep is told the submission is done, another that it failed: the second asks the money back, and the first,
      which writes last, confirms. */
  lemma SweepConfirmsReversed(env: Env, base: ExecutionRecord, reach: iset<World>, ch: Choice) returns (w: World)
    requires Closed(env, base, reach) && WellFormed(env, base) && Allowed(env, ch) && SweepConfirmsEver(env)
    requires ch.reply == Accepted && ch.answer == SaysDone && SaysFailed in env.answers
    ensures w in reach && AllReturned(w) && !Kept(w)
  {
    w := SweepFindsDone(env, base, reach, Sweeping(), ch);
    var other := ch.(answer := SaysFailed);
    w := SweepAsks(env, base, reach, w, 2, other);
    w := SweepReverses(env, base, reach, w, 2, other);
    w := SettlerCloses(env, base, reach, w, 2, other);
    w := SweepCloses(env, base, reach, w, 1, ch);
  }

  /** A sweep is told the submission is done; then a callback reports failure and the money is asked back; and then the
      sweep confirms. */
  lemma SweepConfirmsReported(env: Env, base: ExecutionRecord, reach: iset<World>, ch: Choice) returns (w: World)
    requires Closed(env, base, reach) && WellFormed(env, base) && Allowed(env, ch) && SweepConfirmsEver(env)
    requires ch.reply == Accepted && ch.answer == SaysDone && ReportsFailure in env.reports
    ensures w in reach && AllReturned(w) && !Kept(w)
  {
    w := SweepFindsDone(env, base, reach, CallingBack("n", ReportsFailure, env.amount), ch);
    w := CallbackSettles(env, base, reach, w, 2, ch, "n");
    w := SweepCloses(env, base, reach, w, 1, ch);
  }

  /** A callback reports failure and the money is asked back; the unclear reply reopens the record; another callback
      reports success. */
  lemma CallbackConfirmsReversed(env: Env, base: ExecutionRecord, reach: iset<World>, ch: Choice) returns (w: World)
    requires Closed(env, base, reach) && WellFormed(env, base) && Allowed(env, ch) && ch.reply == Unclear
    requires ReportsFailure in env.reports && ReportsSuccess in env.reports
    ensures w in reach && AllReturned(w) && !Kept(w)
  {
    w := ReplyLate(env, base, reach, ch, ReportsSuccess);
    w := SettlerCloses(env, base, reach, w, 1, ch);
    w := UnclearReopens(env, base, reach, w, ch, w.threads[1].at, ReportsSuccess);
    w := Turn(env, base, reach, w, 0, ch, Finished(Some(w.record.value.id.executionId)), FailedUncertain, OpExecuted);
    w := CallbackMoves(env, base, reach, w, 2, ch, "m", ReportsSuccess);
  }

  /** No interleaving ends with, or even passes through, a CONFIRMED record whose money was asked back, exactly in the
      decided environments. */
  lemma ConfirmedIsKeptExactlyWhenDecided(env: Env, base: ExecutionRecord)
    requires WellFormed(env, base)
    ensures (forall w :: Reachable(env, base, w) && AllReturned(w) ==> Kept(w)) <==> Decided(env)
    ensures (forall w :: Reachable(env, base, w) ==> Kept(w)) <==> Decided(env)
  {
    if Decided(env) {
      forall w | Reachable(env, base, w)
        ensures Kept(w)
      {
        var ws, es :| Run(env, base, ws, es) && ws[|ws| - 1] == w;
        RunStaysDecided(env, base, ws, es);
      }
    } else {
      SomeReversedIsConfirmed(env, base);
    }
  }

  lemma SomeReversedIsConfirmed(env: Env, base: ExecutionRecord)
    requires WellFormed(env, base) && !Decided(env)
    ensures exists w :: Reachable(env, base, w) && AllReturned(w) && !Kept(w)
  {
    var reach := ReachableIsClosed(env, base);
    var w: World;
    if SweepConfirmsEver(env) && SaysFailed in env.answers {
      w := SweepConfirmsReversed(env, base, reach, Picking(Accepted, SaysDone));
    } else if SweepConfirmsEver(env) && ReportsFailure in env.reports {
      w := SweepConfirmsReported(env, base, reach, Picking(Accepted, SaysDone));
    } else {
      var a :| a in env.answers;
      w := CallbackConfirmsReversed(env, base, reach, Picking(Unclear, a));
    }
  }

  /** With a provider that gives every query about the transaction one answer, callbacks that report failure are what it
      takes: a record is confirmed after its money was asked back, in some interleaving, exactly when they meet a sweep
      that may confirm, or an unclear reply and callbacks that report success. */
  lemma OneAnswerKeepsConfirmed(env: Env, base: ExecutionRecord, answer: Answer)
    requires WellFormed(env, base) && env.answers == {answer}
    ensures (forall w :: Reachable(env, base, w) ==> Kept(w))
       <==> ReportsFailure !in env.reports
            || (!(env.reconcilers && Accepted in env.replies && answer == SaysDone)
                && !(Unclear in env.replies && ReportsSuccess in env.reports))
  {
    ConfirmedIsKeptExactlyWhenDecided(env, base);
  }

  /** The environments in which all writes follow the table have both properties. */
  lemma SafeReversesOnceAndNeverConfirmed(env: Env, base: ExecutionRecord, w: World)
    requires WellFormed(env, base) && Safe(env) && Reachable(env, base, w)
    ensures w.reversals <= 1 && Kept(w)
  {
    assert Single(env) && Decided(env);
    OneReversalExactlyWhenSingle(env, base);
    ConfirmedIsKeptExactlyWhenDecided(env, base);
  }
}
