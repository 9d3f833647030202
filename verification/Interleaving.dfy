/** Any number of threads working on one operation at once, interleaved at store calls and provider calls
    (src/execution/engine.py over src/infrastructure/store.py). */
module Interleaving {
  import opened Wrappers
  import opened ExecutionTypes
  import opened CallbackPlan
  import opened ExecutionEffects
  import opened Listings

  // ----- threads -----

  /** What the provider may say to a submission: success, an explicit failure, or a `ProviderError`. */
  datatype Reply = Accepted | Refused | Unclear

  /** What the provider may say to a query. */
  datatype Answer = SaysDone | SaysFailed | SaysOtherwise

  /** Where a thread stands; each value names the store or provider call it makes next. */
  datatype Point =
    // execute
    | Looking
    | Creating
    | Claiming
    | Rereading
    | Submitting
    | Answered(reply: Reply)
    | CasLost
    // apply_callback
    | Calling(nonce: string, payload: Payload)
    | ReadingBack
    // reconcile
    | Listing
    | Querying(snapshot: ExecutionRecord)
    | Judging(target: ExecutionStatus)
    // settling a failed dispatch; the snapshot is FAILED_DISPATCHED from `Reversing` on
    | Normalising
    | HandingOff
    | Reversing
    | Closing(reversed: bool)
    // the operation's status follows the record's
    | Recording(target: ExecutionStatus)
    | Finished(seen: Option<string>)
    | RaisedError

  datatype Thread = Thread(executor: bool, at: Point)

  datatype World = World(
    record: Option<ExecutionRecord>,
    operation: OperationStatus,
    submits: nat,
    reversals: nat,
    writes: seq<(ExecutionStatus, ExecutionStatus)>,
    threads: seq<Thread>)

  /** What a step takes from outside: fresh ids, provider behaviour, the clock. */
  datatype Choice = Choice(freshId: string, txnId: string, reply: Reply, reversed: bool, answer: Answer, now: real)

  datatype Event = Event(thread: nat, choice: Choice)

  /** A status write, whatever the status has become since the writer last looked. */
  function Put(w: World, r: ExecutionRecord): World
    requires w.record.Some?
  {
    w.(record := Some(r), writes := w.writes + [(w.record.value.status, r.status)])
  }

  /** The first step of settling, decided on the snapshot. */
  function Settle(snapshot: ExecutionRecord): Point {
    if snapshot.status == FailedDispatched then Reversing
    else if CanTransition(snapshot.status, FailedDispatched) then Normalising
    else if CanTransition(snapshot.status, HumanHandoff) then HandingOff
    else RaisedError
  }

  function Judge(snapshot: ExecutionRecord, answer: Answer): Point {
    if snapshot.externalTxnId.None? then Judging(Mismatched)
    else
      match answer
      case SaysDone => Judging(if CanTransition(snapshot.status, Confirmed) then Confirmed else Mismatched)
      case SaysFailed => Settle(snapshot)
      case SaysOtherwise => Judging(Mismatched)
  }

  function Receiving(w: World, nonce: string, payload: Payload, now: real): (World, Point)
    requires w.record.Some?
  {
    var r := w.record.value;
    var plan := MakePlan(r, nonce, payload);
    (w.(record := Some(WritePlan(r, plan, nonce, now)),
        operation := if plan.operationStatus.Some? then plan.operationStatus.value else w.operation,
        writes := if plan.nextStatus.Some? then w.writes + [(r.status, plan.nextStatus.value)] else w.writes),
     if plan.reason == DispatchFailed then ReadingBack else Finished(None))
  }

  /** One call of one thread: its effect on the shared state and where the thread stands afterwards. */
  function Act(base: ExecutionRecord, w: World, p: Point, ch: Choice): (World, Point) {
    if w.record.None? then
      match p
      case Looking => (w, Creating)
      case Creating => (w.(record := Some(base.(id := base.id.(executionId := ch.freshId)))), Claiming)
      case Calling(_, _) => (w, Finished(None))
      case Listing => (w, Finished(None))
      case _ => (w, p)
    else
      var r := w.record.value;
      var seen := Finished(Some(r.id.executionId));
      match p
      case Looking => (w, seen)
      case Creating => (w, Claiming)
      case Claiming =>
        if r.status == PendingSubmit && r.attempts == 0 then (w.(record := Some(r.(attempts := 1))), Submitting)
        else (w, Rereading)
      case Rereading => (w, seen)
      case Submitting => (w.(submits := w.submits + 1), Answered(ch.reply))
      case Answered(reply) =>
        (match reply
         case Accepted =>
           if r.status == PendingSubmit then
             (Put(w, r.(status := Submitted, externalTxnId := Some(ch.txnId))), Recording(Submitted))
           else (w, CasLost)
         case Unclear => (Put(w, r.(status := FailedUncertain)), Recording(FailedUncertain))
         case Refused => (Put(w, r.(status := FailedDispatched, externalTxnId := Some(ch.txnId))), Reversing))
      case CasLost => (w, if r.status == Submitted then Recording(Submitted) else seen)
      case Calling(nonce, payload) => Receiving(w, nonce, payload, ch.now)
      case ReadingBack => (w, Settle(r))
      case Listing => (w, if Wanted(r.status) then Querying(r) else Finished(None))
      case Querying(snapshot) => (w, Judge(snapshot, ch.answer))
      case Judging(target) => (Put(w, r.(status := target)), Recording(target))
      case Normalising => (Put(w, r.(status := FailedDispatched)), Reversing)
      case HandingOff => (Put(w, r.(status := HumanHandoff)), Recording(HumanHandoff))
      case Reversing => (w.(reversals := w.reversals + 1), Closing(ch.reversed))
      case Closing(reversed) =>
        var target := if reversed then Compensated else CompensationFailed;
        (Put(w, r.(status := target)), Recording(target))
      case Recording(target) => (w.(operation := OperationStatusFor(target)), seen)
      case _ => (w, p)
  }

  function Next(base: ExecutionRecord, w: World, e: Event): World
    requires e.thread < |w.threads|
  {
    var (w', p) := Act(base, w, w.threads[e.thread].at, e.choice);
    w'.(threads := w.threads[e.thread := w.threads[e.thread].(at := p)])
  }

  // ----- environments and runs -----

  /** What a callback reports about this record. */
  datatype Report = ReportsSuccess | ReportsFailure | ReportsNothing | AmountDiffers

  function ReportOf(amount: Option<real>, p: Payload): Report {
    if p.amount.Some? && amount.Some? && p.amount != amount then AmountDiffers
    else if p.status in {Some(WireSucceeded), Some(WireSuccess), Some(WireConfirmed)} then ReportsSuccess
    else if p.status in {Some(WireFailed), Some(WireRejected), Some(WireRefunded)} then ReportsFailure
    else ReportsNothing
  }

  /** What may happen around the executions: the provider's replies to submissions and its answers to queries, the
      callbacks, and whether sweeps run. */
  datatype Env = Env(
    amount: Option<real>,
    replies: set<Reply>,
    answers: set<Answer>,
    reports: set<Report>,
    reconcilers: bool)

  predicate WellFormed(env: Env, base: ExecutionRecord) {
    && env.replies != {} && env.answers != {} && (AmountDiffers in env.reports ==> env.amount.Some?)
    && base.id.tenantId != ""
    && base.id.amount == env.amount && base.id.mode == Live && base.status == PendingSubmit && base.attempts == 0
    && base.externalTxnId.None? && base.callbackNonce.None?
  }

  /** Callbacks without a nonce are refused before they get here. */
  predicate Arrives(env: Env, t: Thread) {
    if t.executor then t.at == Looking
    else
      || (t.at.Calling? && t.at.nonce != "" && ReportOf(env.amount, t.at.payload) in env.reports)
      || (t.at == Listing && env.reconcilers)
  }

  predicate Start(env: Env, w: World) {
    && w.record.None? && w.operation == OpPending && w.submits == 0 && w.reversals == 0 && w.writes == []
    && forall i :: 0 <= i < |w.threads| ==> Arrives(env, w.threads[i])
  }

  /** What the environment may choose; no execution or transaction has an empty id. */
  predicate Allowed(env: Env, ch: Choice) {
    ch.reply in env.replies && ch.answer in env.answers && ch.freshId != "" && ch.txnId != ""
  }

  predicate Enabled(env: Env, w: World, e: Event) {
    e.thread < |w.threads| && Allowed(env, e.choice)
  }

  ghost predicate Run(env: Env, base: ExecutionRecord, ws: seq<World>, es: seq<Event>) {
    && |ws| == |es| + 1 && Start(env, ws[0])
    && forall k :: 0 <= k < |es| ==> Enabled(env, ws[k], es[k]) && ws[k + 1] == Next(base, ws[k], es[k])
  }

  /** The worlds some run leads to. */
  ghost predicate Reachable(env: Env, base: ExecutionRecord, w: World) {
    exists ws: seq<World>, es: seq<Event> :: Run(env, base, ws, es) && ws[|ws| - 1] == w
  }

  lemma Begin(env: Env, base: ExecutionRecord, w: World)
    requires Start(env, w)
    ensures Reachable(env, base, w)
  {
    assert Run(env, base, [w], []);
  }

  lemma Extend(env: Env, base: ExecutionRecord, w: World, e: Event)
    requires Reachable(env, base, w) && Enabled(env, w, e)
    ensures Reachable(env, base, Next(base, w, e))
  {
    var ws, es :| Run(env, base, ws, es) && ws[|ws| - 1] == w;
    assert Run(env, base, ws + [Next(base, w, e)], es + [e]);
  }

  // ----- exactly one submission, one identity -----

  /** An executor that has won the claim and not returned yet. */
  predicate Holder(t: Thread) {
    t.executor && (t.at in {Submitting, CasLost, Reversing} || t.at.Answered? || t.at.Closing? || t.at.Recording?)
  }

  /** Where the two kinds of threads can stand, and what they have seen. */
  predicate InPlace(record: Option<ExecutionRecord>, t: Thread) {
    && (t.executor ==> t.at in {Looking, Creating, Claiming, Rereading} || Holder(t) || t.at.Finished?)
    && (!t.executor ==> !(t.at in {Looking, Creating, Claiming, Rereading, Submitting, CasLost} || t.at.Answered?))
    && (record.None? ==> t.at in {Looking, Creating, Listing, Finished(None)} || t.at.Calling?)
    && (record.Some? && t.at.Finished? && t.at.seen.Some? ==> t.at.seen.value == record.value.id.executionId)
    && (t.executor && t.at.Finished? ==> t.at.seen.Some?)
  }

  ghost predicate OneSubmission(w: World) {
    && (forall i :: 0 <= i < |w.threads| ==> InPlace(w.record, w.threads[i]))
    && (forall i, j :: 0 <= i < j < |w.threads| ==> !Holder(w.threads[i]) || !Holder(w.threads[j]))
    && (w.record.None? ==> w.submits == 0)
    && (w.record.Some? ==> w.submits <= w.record.value.attempts <= 1)
    && (w.record.Some? && w.record.value.attempts == 0 ==>
          forall i :: 0 <= i < |w.threads| ==> !Holder(w.threads[i]))
    && (w.submits > 0 ==> forall i :: 0 <= i < |w.threads| ==> w.threads[i].at != Submitting)
  }

  lemma ActKeepsIdentity(base: ExecutionRecord, w: World, p: Point, ch: Choice)
    requires w.record.Some?
    ensures var (w', q) := Act(base, w, p, ch);
            w'.record.Some? && w'.record.value.id == w.record.value.id && w'.threads == w.threads
            && (p != Claiming ==> w'.record.value.attempts == w.record.value.attempts)
            && (p != Submitting ==> w'.submits == w.submits)
            && w'.reversals == w.reversals + (if p == Reversing then 1 else 0)
            && (p.Calling? || w'.record.value.callbackNonce == w.record.value.callbackNonce)
            && (p.Calling? && q == ReadingBack ==> w'.record.value.callbackNonce == Some(p.nonce))
            && ((p.Answered? && p.reply != Unclear)
                || w'.record.value.externalTxnId == w.record.value.externalTxnId)
            && (p == Answered(Refused) || (p == Answered(Accepted) && q.Recording?) ==>
                  w'.record.value.externalTxnId.Some?)
  {
  }

  /** The step of a thread in place leaves it in place; it holds the claim afterwards only if it did or has just won
      it, and it submits only as a holder. */
  lemma ActInPlace(base: ExecutionRecord, w: World, t: Thread, ch: Choice)
    requires InPlace(w.record, t) && base.attempts == 0
    ensures var (w', q) := Act(base, w, t.at, ch); var t' := t.(at := q);
            && InPlace(w'.record, t')
            && (w.record.None? && w'.record.Some? ==> w'.record.value.attempts == 0 && !Holder(t'))
            && (Holder(t') && !Holder(t) ==>
                  w.record.Some? && w.record.value.attempts == 0 && w'.record.Some? && w'.record.value.attempts == 1)
            && (t.at == Submitting ==> Holder(t) && t'.at != Submitting)
  {
  }

  lemma OthersStayInPlace(base: ExecutionRecord, w: World, t: Thread, o: Thread, ch: Choice)
    requires InPlace(w.record, t) && InPlace(w.record, o)
    ensures InPlace(Act(base, w, t.at, ch).0.record, o)
  {
  }

  /** What one step does to the two counters. */
  lemma ActCounts(base: ExecutionRecord, w: World, p: Point, ch: Choice)
    ensures var (w', q) := Act(base, w, p, ch);
            && w'.submits == w.submits + (if w.record.Some? && p == Submitting then 1 else 0)
            && (w'.record.None? <==> w.record.None? && p != Creating)
            && (w.record.Some? ==>
                  w'.record.value.attempts == w.record.value.attempts
                  || (p == Claiming && w.record.value.attempts == 0 && w'.record.value.attempts == 1))
            && (q == Submitting && p != Submitting ==> p == Claiming)
            && w'.threads == w.threads
  {
  }

  lemma StepKeepsOneSubmission(env: Env, base: ExecutionRecord, w: World, e: Event)
    requires OneSubmission(w) && Enabled(env, w, e) && base.attempts == 0
    ensures OneSubmission(Next(base, w, e))
  {
    var t, w' := w.threads[e.thread], Next(base, w, e);
    ActInPlace(base, w, t, e.choice);
    ActCounts(base, w, t.at, e.choice);
    forall i | 0 <= i < |w'.threads|
      ensures InPlace(w'.record, w'.threads[i])
    {
      if i != e.thread {
        OthersStayInPlace(base, w, t, w.threads[i], e.choice);
      }
    }
    assert forall i :: 0 <= i < |w.threads| && i != e.thread ==> w'.threads[i] == w.threads[i];
  }

  lemma {:induction false} RunKeepsOneSubmission(env: Env, base: ExecutionRecord, ws: seq<World>, es: seq<Event>)
    requires Run(env, base, ws, es) && base.attempts == 0
    ensures OneSubmission(ws[|es|])
  {
    if es != [] {
      var n := |es| - 1;
      RunKeepsOneSubmission(env, base, ws[..n + 1], es[..n]);
      StepKeepsOneSubmission(env, base, ws[n], es[n]);
    }
  }

  /** Whatever the provider, the callbacks and the sweeps do, in every interleaving the provider is asked to
      submit at most once, no execution raises (one that loses the compare-and-set replays), and all finished
      executions report the same execution. */
  lemma SubmittedAtMostOnce(env: Env, base: ExecutionRecord, w: World)
    requires Reachable(env, base, w) && base.attempts == 0
    ensures w.submits <= 1
    ensures forall i :: 0 <= i < |w.threads| && w.threads[i].executor ==> w.threads[i].at != RaisedError
    ensures forall i, j :: (0 <= i < |w.threads| && 0 <= j < |w.threads|
                            && w.threads[i].executor && w.threads[j].executor
                            && w.threads[i].at.Finished? && w.threads[j].at.Finished?) ==>
              w.threads[i].at.seen.Some? && w.threads[i].at.seen == w.threads[j].at.seen
  {
    var ws, es :| Run(env, base, ws, es) && ws[|ws| - 1] == w;
    RunKeepsOneSubmission(env, base, ws, es);
    assert forall i :: 0 <= i < |w.threads| ==> InPlace(w.record, w.threads[i]);
  }

  // ----- when every write follows the table -----

  /** Every status write moved along the table (so no terminal status was overwritten), and no thread raised. */
  ghost predicate Orderly(w: World) {
    && (forall k :: 0 <= k < |w.writes| ==> CanTransition(w.writes[k].0, w.writes[k].1))
    && (forall i :: 0 <= i < |w.threads| ==> w.threads[i].at != RaisedError)
  }

  predicate Quiet(env: Env) {
    env.reports <= {ReportsNothing}
  }

  predicate Agreeable(env: Env) {
    env.replies <= {Accepted}
  }

  /** No sweeps; a provider that always accepts unless callbacks never report anything; and never both failure
      reports and differing amounts. */
  predicate Safe(env: Env) {
    !env.reconcilers && (Agreeable(env) || Quiet(env)) && !({ReportsFailure, AmountDiffers} <= env.reports)
  }

  predicate Settling(t: Thread) {
    t.at in {ReadingBack, Reversing} || t.at.Closing?
  }

  /** A thread that will only write what the table allows. */
  predicate Calm(env: Env, record: Option<ExecutionRecord>, t: Thread) {
    && !(t.at in {Normalising, HandingOff, RaisedError, Listing} || t.at.Querying? || t.at.Judging?)
    && (t.at.Answered? ==> t.at.reply in env.replies)
    && (t.at.Calling? ==> ReportOf(env.amount, t.at.payload) in env.reports)
    && (record.Some? && (t.at == Submitting || t.at.Answered?) && !Agreeable(env) ==>
          record.value.status == PendingSubmit)
    && (Settling(t) ==> record.Some? && record.value.status == FailedDispatched && AmountDiffers !in env.reports)
  }

  ghost predicate SafeWorld(env: Env, w: World) {
    && OneSubmission(w) && Orderly(w)
    && (w.record.Some? ==> w.record.value.id.amount == env.amount)
    && (forall i :: 0 <= i < |w.threads| ==> Calm(env, w.record, w.threads[i]))
    && (forall i, j :: 0 <= i < j < |w.threads| ==> !Settling(w.threads[i]) || !Settling(w.threads[j]))
  }

  /** What a callback's plan does, by what it reports. */
  lemma ReportDecides(r: ExecutionRecord, nonce: string, p: Payload)
    ensures var plan := MakePlan(r, nonce, p);
            var report := ReportOf(r.id.amount, p);
            (plan.nextStatus.Some? ==> report != ReportsNothing && CanTransition(r.status, plan.nextStatus.value))
            && (plan.nextStatus == Some(Confirmed) ==> report == ReportsSuccess)
            && (plan.nextStatus == Some(FailedDispatched) <==> plan.reason == DispatchFailed)
            && (plan.nextStatus == Some(FailedDispatched) ==> report == ReportsFailure)
            && (plan.nextStatus == Some(Mismatched) ==> report == AmountDiffers)
            && (plan.nextStatus.Some? ==> plan.nextStatus.value in {Confirmed, FailedDispatched, Mismatched})
            && (r.status == FailedDispatched && plan.nextStatus.Some? ==> report == AmountDiffers)
            && (plan.nextStatus.Some? <==> plan.operationStatus.Some?)
            && (plan.nextStatus.Some? ==> plan.operationStatus.value == OperationStatusFor(plan.nextStatus.value))
  {
  }

  /** A legal write or none, and a calm thread again. */
  ghost predicate CalmStep(env: Env, w: World, t: Thread, next: (World, Point)) {
    var (w', q) := next;
    && Calm(env, w'.record, t.(at := q))
    && (w'.record.Some? ==> w'.record.value.id.amount == env.amount)
    && (w'.writes == w.writes
        || (|w'.writes| == |w.writes| + 1 && w'.writes[..|w.writes|] == w.writes
            && CanTransition(w'.writes[|w.writes|].0, w'.writes[|w.writes|].1)))
  }

  lemma CalmReceiving(env: Env, w: World, t: Thread, ch: Choice)
    requires Safe(env) && w.record.Some? && t.at.Calling?
    requires InPlace(w.record, t) && Calm(env, w.record, t) && w.record.value.id.amount == env.amount
    ensures CalmStep(env, w, t, Receiving(w, t.at.nonce, t.at.payload, ch.now))
  {
    ReportDecides(w.record.value, t.at.nonce, t.at.payload);
  }

  /** The step of a calm thread. */
  lemma CalmAct(env: Env, base: ExecutionRecord, w: World, t: Thread, ch: Choice)
    requires Safe(env) && base.id.amount == env.amount && base.status == PendingSubmit
    requires InPlace(w.record, t) && Calm(env, w.record, t) && Allowed(env, ch)
    requires w.record.Some? ==> w.record.value.id.amount == env.amount
    ensures CalmStep(env, w, t, Act(base, w, t.at, ch))
  {
    if w.record.Some? && t.at.Calling? {
      CalmReceiving(env, w, t, ch);
    }
  }

  /** The step of one thread leaves the others calm. */
  lemma OthersStayCalm(env: Env, base: ExecutionRecord, w: World, t: Thread, o: Thread, ch: Choice)
    requires Safe(env) && base.id.amount == env.amount && base.status == PendingSubmit
    requires InPlace(w.record, t) && Calm(env, w.record, t) && Allowed(env, ch)
    requires InPlace(w.record, o) && Calm(env, w.record, o)
    requires w.record.Some? ==> w.record.value.id.amount == env.amount
    requires !(Holder(t) && Holder(o)) && !(Settling(t) && Settling(o))
    ensures var (w', q) := Act(base, w, t.at, ch);
            Calm(env, w'.record, o) && !(Settling(t.(at := q)) && Settling(o))
  {
    if w.record.Some? && t.at.Calling? {
      ReportDecides(w.record.value, t.at.nonce, t.at.payload);
    }
  }

  lemma StepKeepsSafe(env: Env, base: ExecutionRecord, w: World, e: Event)
    requires Safe(env) && WellFormed(env, base) && SafeWorld(env, w) && Enabled(env, w, e)
    ensures SafeWorld(env, Next(base, w, e))
  {
    var t, w' := w.threads[e.thread], Next(base, w, e);
    StepKeepsOneSubmission(env, base, w, e);
    CalmAct(env, base, w, t, e.choice);
    forall i | 0 <= i < |w.threads| && i != e.thread
      ensures Calm(env, w'.record, w'.threads[i]) && !(Settling(w'.threads[e.thread]) && Settling(w'.threads[i]))
    {
      OthersStayCalm(env, base, w, t, w.threads[i], e.choice);
    }
    forall k | 0 <= k < |w'.writes|
      ensures CanTransition(w'.writes[k].0, w'.writes[k].1)
    {
      if k < |w.writes| {
        assert w'.writes[k] == w.writes[k];
      }
    }
  }

  lemma {:induction false} RunStaysSafe(env: Env, base: ExecutionRecord, ws: seq<World>, es: seq<Event>)
    requires Safe(env) && WellFormed(env, base) && Run(env, base, ws, es)
    ensures SafeWorld(env, ws[|es|])
  {
    if es != [] {
      var n := |es| - 1;
      RunStaysSafe(env, base, ws[..n + 1], es[..n]);
      StepKeepsSafe(env, base, ws[n], es[n]);
    }
  }

  // ----- runs that break the table -----

  function Picking(k: Reply, a: Answer): Choice {
    Choice("e", "x", k, false, a, 0.0)
  }

  function Fresh(threads: seq<Thread>): World {
    World(None, OpPending, 0, 0, [], threads)
  }

  /** Thread 0 has claimed, submitted and got this reply; nobody else has moved. */
  function Replied(base: ExecutionRecord, threads: seq<Thread>, ch: Choice): World
    requires |threads| > 0
  {
    World(Some(base.(id := base.id.(executionId := ch.freshId), attempts := 1)), OpPending, 1, 0, [],
          threads[0 := Thread(true, Answered(ch.reply))])
  }

  /** A set of worlds that contains every start and is closed under steps: whatever holds somewhere in every such
      set holds somewhere in the reachable worlds. */
  ghost predicate Closed(env: Env, base: ExecutionRecord, reach: iset<World>) {
    && (forall w {:trigger Start(env, w)} :: Start(env, w) ==> w in reach)
    && (forall w, e {:trigger Next(base, w, e)} :: w in reach && Enabled(env, w, e) ==> Next(base, w, e) in reach)
  }

  lemma ReachableIsClosed(env: Env, base: ExecutionRecord) returns (reach: iset<World>)
    ensures reach == iset w | Reachable(env, base, w)
    ensures Closed(env, base, reach)
  {
    reach := iset w | Reachable(env, base, w);
    forall w | Start(env, w)
      ensures w in reach
    {
      Begin(env, base, w);
    }
    forall w, e | w in reach && Enabled(env, w, e)
      ensures Next(base, w, e) in reach
    {
      Extend(env, base, w, e);
    }
  }

  lemma ReachReplied(env: Env, base: ExecutionRecord, reach: iset<World>, threads: seq<Thread>, ch: Choice)
    requires Closed(env, base, reach) && WellFormed(env, base) && Allowed(env, ch)
    requires |threads| > 0 && threads[0] == Thread(true, Looking) && Start(env, Fresh(threads))
    ensures Replied(base, threads, ch) in reach
  {
    var e, w0 := Event(0, ch), Fresh(threads);
    var w1 := Next(base, w0, e);
    var w2 := Next(base, w1, e);
    var w3 := Next(base, w2, e);
    var w4 := Next(base, w3, e);
    assert w4.threads == threads[0 := Thread(true, Answered(ch.reply))];
  }

  /** A callback body that reports this. */
  function PayloadFor(report: Report, amount: Option<real>): (p: Payload)
    requires report == AmountDiffers ==> amount.Some?
    ensures ReportOf(amount, p) == report
  {
    match report
    case ReportsSuccess => Payload(Some(WireSuccess), None, None)
    case ReportsFailure => Payload(Some(WireFailed), None, None)
    case ReportsNothing => Payload(None, None, None)
    case AmountDiffers => Payload(None, Some(amount.value + 1.0), None)
  }

  function Executing(): Thread {
    Thread(true, Looking)
  }

  function CallingBack(nonce: string, report: Report, amount: Option<real>): Thread
    requires report == AmountDiffers ==> amount.Some?
  {
    Thread(false, Calling(nonce, PayloadFor(report, amount)))
  }

  function Sweeping(): Thread {
    Thread(false, Listing)
  }

  /** One more step by this thread, told by where the thread, the status and the operation end up. */
  lemma Turn(env: Env, base: ExecutionRecord, reach: iset<World>, w: World, i: nat, ch: Choice,
             p: Point, st: ExecutionStatus, op: OperationStatus) returns (w': World)
    requires Closed(env, base, reach) && w in reach && i < |w.threads| && Allowed(env, ch) && w.record.Some?
    requires var (v, q) := Act(base, w, w.threads[i].at, ch);
             q == p && v.record.Some? && v.record.value.status == st && v.operation == op
    ensures w' in reach && w'.record.Some? && w'.record.value.status == st && w'.operation == op
    ensures w'.record.value.id == w.record.value.id
    ensures w.threads[i].at.Calling? || w'.record.value.callbackNonce == w.record.value.callbackNonce
    ensures w.threads[i].at.Calling? && p == ReadingBack ==>
              w'.record.value.callbackNonce == Some(w.threads[i].at.nonce)
    ensures |w'.threads| == |w.threads| && w'.threads[i] == w.threads[i].(at := p)
    ensures w'.reversals == w.reversals + if w.threads[i].at == Reversing then 1 else 0
    ensures (w.threads[i].at.Answered? && w.threads[i].at.reply != Unclear)
            || w'.record.value.externalTxnId == w.record.value.externalTxnId
    ensures w.threads[i].at == Answered(Refused) ==> w'.record.value.externalTxnId.Some?
    ensures w.threads[i].at == Answered(Accepted) && p.Recording? ==> w'.record.value.externalTxnId.Some?
    ensures forall j :: 0 <= j < |w.threads| && j != i ==> w'.threads[j] == w.threads[j]
  {
    assert Enabled(env, w, Event(i, ch));
    ActKeepsIdentity(base, w, w.threads[i].at, ch);
    w' := Next(base, w, Event(i, ch));
  }

  /** A step that writes what the table forbids. */
  lemma BadTurn(env: Env, base: ExecutionRecord, reach: iset<World>, w: World, i: nat, ch: Choice, st: ExecutionStatus)
    returns (w': World)
    requires Closed(env, base, reach) && w in reach && i < |w.threads| && Allowed(env, ch) && w.record.Some?
    requires Act(base, w, w.threads[i].at, ch).0.writes == w.writes + [(w.record.value.status, st)]
    requires !CanTransition(w.record.value.status, st)
    ensures w' in reach && !Orderly(w')
  {
    assert Enabled(env, w, Event(i, ch));
    w' := Next(base, w, Event(i, ch));
    assert w'.writes[|w.writes|] == (w.record.value.status, st);
  }

  /** The status a reply leads to. */
  function After(k: Reply): ExecutionStatus {
    match k
    case Accepted => Submitted
    case Unclear => FailedUncertain
    case Refused => FailedDispatched
  }

  function PointAfter(k: Reply): Point {
    if k == Refused then Reversing else Recording(After(k))
  }

  /** The status a callback that reports this leads an open record to. */
  function Reported(report: Report): ExecutionStatus
    requires report != ReportsNothing
  {
    match report
    case ReportsSuccess => Confirmed
    case ReportsFailure => FailedDispatched
    case AmountDiffers => Mismatched
  }

  /** A callback under a new nonce moves the record. */
  lemma CallbackMoves(env: Env, base: ExecutionRecord, reach: iset<World>, v: World, i: nat, ch: Choice,
                      nonce: string, report: Report) returns (w: World)
    requires Closed(env, base, reach) && v in reach && Allowed(env, ch)
    requires report != ReportsNothing && (report == AmountDiffers ==> env.amount.Some?)
    requires i < |v.threads| && v.threads[i] == CallingBack(nonce, report, env.amount)
    requires v.record.Some? && v.record.value.id.amount == env.amount && v.record.value.callbackNonce != Some(nonce)
    requires CanTransition(v.record.value.status, Reported(report)) && v.record.value.status != Reported(report)
    ensures w in reach && w.record.Some? && w.record.value.status == Reported(report)
    ensures w.operation == OperationStatusFor(Reported(report)) && w.reversals == v.reversals
    ensures w.record.value.id == v.record.value.id
    ensures report == ReportsFailure ==> w.record.value.callbackNonce == Some(nonce)
    ensures |w.threads| == |v.threads|
    ensures w.threads[i].at == if report == ReportsFailure then ReadingBack else Finished(None)
    ensures forall j :: 0 <= j < |v.threads| && j != i ==> w.threads[j] == v.threads[j]
  {
    var p := if report == ReportsFailure then ReadingBack else Finished(None);
    w := Turn(env, base, reach, v, i, ch, p, Reported(report), OperationStatusFor(Reported(report)));
  }

  /** The settler of a callback's failure reads it back and asks for the reversal. */
  lemma SettlerAsks(env: Env, base: ExecutionRecord, reach: iset<World>, v: World, i: nat, ch: Choice)
    returns (w: World)
    requires Closed(env, base, reach) && v in reach && Allowed(env, ch)
    requires v.record.Some? && v.record.value.status == FailedDispatched
    requires i < |v.threads| && v.threads[i].at == ReadingBack
    ensures w in reach && w.record.Some? && w.record.value.status == FailedDispatched && w.operation == v.operation
    ensures w.record.value.id == v.record.value.id && w.record.value.callbackNonce == v.record.value.callbackNonce
    ensures w.reversals == v.reversals + 1 && |w.threads| == |v.threads| && w.threads[i].at == Closing(ch.reversed)
    ensures forall j :: 0 <= j < |v.threads| && j != i ==> w.threads[j] == v.threads[j]
  {
    w := Turn(env, base, reach, v, i, ch, Reversing, FailedDispatched, v.operation);
    w := Turn(env, base, reach, w, i, ch, Closing(ch.reversed), FailedDispatched, w.operation);
  }

  /** A settler writes the end of its reversal and tells the operation. */
  lemma SettlerCloses(env: Env, base: ExecutionRecord, reach: iset<World>, v: World, i: nat, ch: Choice)
    returns (w: World)
    requires Closed(env, base, reach) && v in reach && Allowed(env, ch) && v.record.Some?
    requires i < |v.threads| && v.threads[i].at.Closing?
    ensures w in reach && w.record.Some? && |w.threads| == |v.threads| && w.threads[i].at.Finished?
    ensures w.record.value.status == if v.threads[i].at.reversed then Compensated else CompensationFailed
    ensures w.operation == OperationStatusFor(w.record.value.status) && w.reversals == v.reversals
    ensures w.record.value.id == v.record.value.id && w.record.value.callbackNonce == v.record.value.callbackNonce
    ensures forall j :: 0 <= j < |v.threads| && j != i ==> w.threads[j] == v.threads[j]
  {
    var st := if v.threads[i].at.reversed then Compensated else CompensationFailed;
    w := Turn(env, base, reach, v, i, ch, Recording(st), st, v.operation);
    w := Turn(env, base, reach, w, i, ch, Finished(Some(w.record.value.id.executionId)), st, OperationStatusFor(st));
  }

  /** A callback reports a failure, and its thread settles it to the end. */
  lemma CallbackSettles(env: Env, base: ExecutionRecord, reach: iset<World>, v: World, i: nat, ch: Choice,
                        nonce: string) returns (w: World)
    requires Closed(env, base, reach) && v in reach && Allowed(env, ch) && v.record.Some?
    requires i < |v.threads| && v.threads[i] == CallingBack(nonce, ReportsFailure, env.amount)
    requires v.record.value.id.amount == env.amount && v.record.value.callbackNonce != Some(nonce)
    requires CanTransition(v.record.value.status, FailedDispatched)
    ensures w in reach && w.record.Some? && |w.threads| == |v.threads| && w.threads[i].at.Finished?
    ensures w.record.value.status == if ch.reversed then Compensated else CompensationFailed
    ensures w.operation == OperationStatusFor(w.record.value.status) && w.reversals == v.reversals + 1
    ensures w.record.value.id == v.record.value.id
    ensures forall j :: 0 <= j < |v.threads| && j != i ==> w.threads[j] == v.threads[j]
  {
    w := CallbackMoves(env, base, reach, v, i, ch, nonce, ReportsFailure);
    w := SettlerAsks(env, base, reach, w, i, ch);
    w := SettlerCloses(env, base, reach, w, i, ch);
  }

  lemma ReachWritten(env: Env, base: ExecutionRecord, reach: iset<World>, threads: seq<Thread>, ch: Choice)
    returns (w: World)
    requires Closed(env, base, reach) && WellFormed(env, base) && Allowed(env, ch)
    requires |threads| > 0 && threads[0] == Thread(true, Looking) && Start(env, Fresh(threads))
    ensures w in reach && w.record.Some? && w.record.value.status == After(ch.reply) && w.operation == OpPending
    ensures w.record.value.id.amount == env.amount && w.record.value.callbackNonce.None? && w.reversals == 0
    ensures w.record.value.externalTxnId.Some? <==> ch.reply != Unclear
    ensures |w.threads| == |threads| && w.threads[0].at == PointAfter(ch.reply)
    ensures forall j :: 0 < j < |threads| ==> w.threads[j] == threads[j]
  {
    ReachReplied(env, base, reach, threads, ch);
    var v, k := Replied(base, threads, ch), ch.reply;
    w := Turn(env, base, reach, v, 0, ch, PointAfter(k), After(k), OpPending);
  }

  /** A sweep lists an open record and asks about it. */
  lemma SweepAsks(env: Env, base: ExecutionRecord, reach: iset<World>, v: World, i: nat, ch: Choice)
    returns (w: World)
    requires Closed(env, base, reach) && v in reach && Allowed(env, ch)
    requires v.record.Some? && Wanted(v.record.value.status) && i < |v.threads| && v.threads[i] == Sweeping()
    ensures w in reach && w.record.Some? && w.record.value.status == v.record.value.status && |w.threads| == |v.threads|
    ensures w.record.value.externalTxnId == v.record.value.externalTxnId && w.reversals == v.reversals
    ensures w.record.value.id == v.record.value.id && w.record.value.callbackNonce == v.record.value.callbackNonce
    ensures w.threads[i].at == Judge(v.record.value, ch.answer)
    ensures forall j :: 0 <= j < |v.threads| && j != i ==> w.threads[j] == v.threads[j]
  {
    var r := v.record.value;
    w := Turn(env, base, reach, v, i, ch, Querying(r), r.status, v.operation);
    w := Turn(env, base, reach, w, i, ch, Judge(r, ch.answer), r.status, w.operation);
  }

  /** A sweep that was told of a failure writes it and asks for the reversal. */
  lemma SweepReverses(env: Env, base: ExecutionRecord, reach: iset<World>, v: World, i: nat, ch: Choice)
    returns (w: World)
    requires Closed(env, base, reach) && v in reach && Allowed(env, ch) && v.record.Some?
    requires i < |v.threads| && v.threads[i].at == Normalising
    ensures w in reach && w.record.Some? && w.record.value.status == FailedDispatched
    ensures w.reversals == v.reversals + 1 && |w.threads| == |v.threads| && w.threads[i].at == Closing(ch.reversed)
    ensures forall j :: 0 <= j < |v.threads| && j != i ==> w.threads[j] == v.threads[j]
  {
    w := Turn(env, base, reach, v, i, ch, Reversing, FailedDispatched, v.operation);
    w := Turn(env, base, reach, w, i, ch, Closing(ch.reversed), FailedDispatched, w.operation);
  }

  /** A sweep writes what it has judged and tells the operation. */
  lemma SweepCloses(env: Env, base: ExecutionRecord, reach: iset<World>, v: World, i: nat, ch: Choice)
    returns (w: World)
    requires Closed(env, base, reach) && v in reach && Allowed(env, ch) && v.record.Some?
    requires i < |v.threads| && v.threads[i].at.Judging?
    ensures w in reach && w.record.Some? && |w.threads| == |v.threads| && w.threads[i].at.Finished?
    ensures w.record.value.status == v.threads[i].at.target && w.reversals == v.reversals
    ensures w.operation == OperationStatusFor(w.record.value.status) && w.record.value.id == v.record.value.id
    ensures forall j :: 0 <= j < |v.threads| && j != i ==> w.threads[j] == v.threads[j]
  {
    var st := v.threads[i].at.target;
    w := Turn(env, base, reach, v, i, ch, Recording(st), st, v.operation);
    w := Turn(env, base, reach, w, i, ch, Finished(Some(w.record.value.id.executionId)), st, OperationStatusFor(st));
  }

  /** Two sweeps that have judged the record alike both write it. */
  lemma JudgesCollide(env: Env, base: ExecutionRecord, reach: iset<World>, v: World, ch: Choice, st: ExecutionStatus)
    returns (w: World)
    requires Closed(env, base, reach) && v in reach && Allowed(env, ch) && v.record.Some? && IsTerminal(st)
    requires |v.threads| == 3 && v.threads[1].at == Judging(st) && v.threads[2].at == Judging(st)
    ensures w in reach && !Orderly(w)
  {
    w := Turn(env, base, reach, v, 1, ch, Recording(st), st, v.operation);
    w := BadTurn(env, base, reach, w, 2, ch, st);
  }

  lemma NormalisersCollide(env: Env, base: ExecutionRecord, reach: iset<World>, v: World, ch: Choice) returns (w: World)
    requires Closed(env, base, reach) && v in reach && Allowed(env, ch) && v.record.Some?
    requires |v.threads| == 3 && v.threads[1].at == Normalising && v.threads[2].at == Normalising
    ensures w in reach && !Orderly(w)
  {
    w := Turn(env, base, reach, v, 1, ch, Reversing, FailedDispatched, v.operation);
    w := BadTurn(env, base, reach, w, 2, ch, FailedDispatched);
  }

  lemma SettlersCollide(env: Env, base: ExecutionRecord, reach: iset<World>, v: World, ch: Choice) returns (w: World)
    requires Closed(env, base, reach) && v in reach && Allowed(env, ch) && !ch.reversed && v.record.Some?
    requires |v.threads| == 3 && v.threads[1].at == Reversing && v.threads[2].at == Reversing
    ensures w in reach && !Orderly(w)
  {
    var st := v.record.value.status;
    w := Turn(env, base, reach, v, 1, ch, Closing(false), st, v.operation);
    w := Turn(env, base, reach, w, 2, ch, Closing(false), st, w.operation);
    w := ClosersCollide(env, base, reach, w, ch);
  }

  lemma ClosersCollide(env: Env, base: ExecutionRecord, reach: iset<World>, v: World, ch: Choice) returns (w: World)
    requires Closed(env, base, reach) && v in reach && Allowed(env, ch) && v.record.Some?
    requires |v.threads| == 3 && v.threads[1].at == Closing(false) && v.threads[2].at == Closing(false)
    ensures w in reach && !Orderly(w)
  {
    w := Turn(env, base, reach, v, 1, ch, Recording(CompensationFailed), CompensationFailed, v.operation);
    w := BadTurn(env, base, reach, w, 2, ch, CompensationFailed);
  }

  /** Two sweeps that listed the same record both write it, whatever the provider answers both. */
  lemma SweepsCollide(env: Env, base: ExecutionRecord, reach: iset<World>, v: World, ch: Choice) returns (w: World)
    requires Closed(env, base, reach) && v in reach && Allowed(env, ch) && !ch.reversed
    requires v.record.Some? && v.record.value.status in {Submitted, FailedUncertain, FailedDispatched}
    requires |v.threads| == 3 && v.threads[1] == Sweeping() && v.threads[2] == Sweeping()
    ensures w in reach && !Orderly(w)
  {
    w := SweepAsks(env, base, reach, v, 1, ch);
    var p := Judge(v.record.value, ch.answer);
    var q := Judge(w.record.value, ch.answer);
    assert p == q && (p == Normalising || p == Reversing || (p.Judging? && IsTerminal(p.target)));
    w := SweepAsks(env, base, reach, w, 2, ch);
    if p.Judging? {
      w := JudgesCollide(env, base, reach, w, ch, p.target);
    } else if p == Normalising {
      w := NormalisersCollide(env, base, reach, w, ch);
    } else {
      w := SettlersCollide(env, base, reach, w, ch);
    }
  }

  lemma TwoSweeps(env: Env, base: ExecutionRecord, reach: iset<World>, ch: Choice) returns (w: World)
    requires Closed(env, base, reach) && WellFormed(env, base) && Allowed(env, ch) && !ch.reversed && env.reconcilers
    ensures w in reach && !Orderly(w)
  {
    w := ReachWritten(env, base, reach, [Executing(), Sweeping(), Sweeping()], ch);
    w := SweepsCollide(env, base, reach, w, ch);
  }

  /** A submitter whose reply is not a success writes over what a callback has settled meanwhile. */
  lemma ReplyOverwritesCallback(env: Env, base: ExecutionRecord, reach: iset<World>, ch: Choice, report: Report)
    returns (w: World)
    requires Closed(env, base, reach) && WellFormed(env, base) && Allowed(env, ch) && ch.reply != Accepted
    requires report in env.reports && report != ReportsNothing
    ensures w in reach && !Orderly(w)
  {
    var threads := [Executing(), CallingBack("n", report, env.amount)];
    ReachReplied(env, base, reach, threads, ch);
    w := CallbackMoves(env, base, reach, Replied(base, threads, ch), 1, ch, "n", report);
    w := ReplyOverwrites(env, base, reach, w, ch);
  }

  lemma ReplyOverwrites(env: Env, base: ExecutionRecord, reach: iset<World>, v: World, ch: Choice) returns (w: World)
    requires Closed(env, base, reach) && v in reach && Allowed(env, ch) && ch.reply != Accepted && v.record.Some?
    requires v.record.value.status in {Confirmed, FailedDispatched, Mismatched}
    requires |v.threads| > 0 && v.threads[0].at == Answered(ch.reply)
    ensures w in reach && !Orderly(w)
  {
    w := BadTurn(env, base, reach, v, 0, ch, After(ch.reply));
  }

  /** A callback with a differing amount closes the record while another callback's failure is being compensated. */
  lemma CompensationOverwritesMismatch(env: Env, base: ExecutionRecord, reach: iset<World>, ch: Choice)
    returns (w: World)
    requires Closed(env, base, reach) && WellFormed(env, base) && Allowed(env, ch) && !ch.reversed
    requires {ReportsFailure, AmountDiffers} <= env.reports
    ensures w in reach && !Orderly(w)
  {
    assert ReportsFailure in env.reports && AmountDiffers in env.reports;
    var threads :=
      [Executing(), CallingBack("n", ReportsFailure, env.amount), CallingBack("m", AmountDiffers, env.amount)];
    ReachReplied(env, base, reach, threads, ch);
    w := CallbackMoves(env, base, reach, Replied(base, threads, ch), 1, ch, "n", ReportsFailure);
    w := MismatchMeetsReversal(env, base, reach, w, ch);
    w := BadTurn(env, base, reach, w, 1, ch, CompensationFailed);
  }

  /** The settler asks for the reversal; before the answer, a callback with another amount closes the record. */
  lemma MismatchMeetsReversal(env: Env, base: ExecutionRecord, reach: iset<World>, v: World, ch: Choice)
    returns (w: World)
    requires Closed(env, base, reach) && v in reach && Allowed(env, ch) && !ch.reversed && env.amount.Some?
    requires v.record.Some? && v.record.value.status == FailedDispatched && v.record.value.id.amount == env.amount
    requires v.record.value.callbackNonce == Some("n")
    requires |v.threads| == 3 && v.threads[1].at == ReadingBack
    requires v.threads[2] == CallingBack("m", AmountDiffers, env.amount)
    ensures w in reach && w.record.Some? && w.record.value.status == Mismatched
    ensures |w.threads| == 3 && w.threads[1].at == Closing(false)
  {
    w := Turn(env, base, reach, v, 1, ch, Reversing, FailedDispatched, v.operation);
    w := CallbackMoves(env, base, reach, w, 2, ch, "m", AmountDiffers);
    w := Turn(env, base, reach, w, 1, ch, Closing(false), Mismatched, OpHandoff);
  }

  /** Every interleaving writes along the table, overwrites no terminal status and raises nowhere, exactly in the
      safe environments: no concurrent sweeps, submissions always accepted unless callbacks report nothing, and
      not both failure reports and differing amounts. */
  lemma OrderlyExactlyWhenSafe(env: Env, base: ExecutionRecord)
    requires WellFormed(env, base)
    ensures (forall w :: Reachable(env, base, w) ==> Orderly(w)) <==> Safe(env)
  {
    if Safe(env) {
      forall w | Reachable(env, base, w)
        ensures Orderly(w)
      {
        var ws, es :| Run(env, base, ws, es) && ws[|ws| - 1] == w;
        RunStaysSafe(env, base, ws, es);
      }
    } else {
      SomeRunIsDisorderly(env, base);
    }
  }

  lemma SomeRunIsDisorderly(env: Env, base: ExecutionRecord)
    requires WellFormed(env, base) && !Safe(env)
    ensures exists w :: Reachable(env, base, w) && !Orderly(w)
  {
    var reach := ReachableIsClosed(env, base);
    var k, a :| k in env.replies && a in env.answers;
    var w: World;
    if env.reconcilers {
      w := TwoSweeps(env, base, reach, Picking(k, a));
    } else if {ReportsFailure, AmountDiffers} <= env.reports {
      w := CompensationOverwritesMismatch(env, base, reach, Picking(k, a));
    } else {
      var other :| other in env.replies && other != Accepted;
      var report :| report in env.reports && report != ReportsNothing;
      w := ReplyOverwritesCallback(env, base, reach, Picking(other, a), report);
    }
  }

  // ----- when the operation tells what became of its record -----

  ghost predicate AllReturned(w: World) {
    forall i :: 0 <= i < |w.threads| ==> w.threads[i].at.Finished? || w.threads[i].at == RaisedError
  }

  predicate Told(w: World) {
    w.record.None? || w.record.value.status == PendingSubmit
    || w.operation == OperationStatusFor(w.record.value.status)
  }

  /** No failure reports; no differing amounts unless the provider only ever refuses; and no sweeps unless it only ever
      accepts and answers that it is done. */
  predicate Truthful(env: Env) {
    && ReportsFailure !in env.reports && (AmountDiffers !in env.reports || env.replies <= {Refused})
    && (!env.reconcilers || (env.replies <= {Accepted} && env.answers <= {SaysDone}))
  }

  predicate AboutToTell(t: Thread) {
    t.at == Reversing || t.at.Closing? || t.at.Recording?
  }

  predicate SweepingPoint(p: Point) {
    p == Listing || p.Querying? || p.Judging? || p == Recording(Confirmed)
  }

  /** What a thread is about to tell the operation is still so when it tells it. */
  predicate Discreet(env: Env, record: Option<ExecutionRecord>, t: Thread) {
    && !(t.at in {Normalising, HandingOff, RaisedError, ReadingBack})
    && (SweepingPoint(t.at) ==> env.reconcilers)
    && (t.at.Querying? ==> t.at.snapshot.status == Submitted && t.at.snapshot.externalTxnId.Some?)
    && (t.at.Judging? ==> t.at.target == Confirmed)
    && (!t.executor ==> t.at.Calling? || t.at.Finished? || SweepingPoint(t.at))
    && (t.at.Answered? ==> t.at.reply in env.replies)
    && (t.at.Calling? ==> ReportOf(env.amount, t.at.payload) in env.reports)
    && (t.at == CasLost ==> !(env.replies <= {Refused}))
    && (t.at == Reversing || t.at.Closing? ==> Refused in env.replies)
    && (t.at.Recording? ==> record.Some? && StillSo(env, t.at.target, record.value.status))
  }

  predicate StillSo(env: Env, target: ExecutionStatus, status: ExecutionStatus) {
    || (target in {Submitted, FailedUncertain} && status in {target, Confirmed} && !(env.replies <= {Refused}))
    || (target in {Compensated, CompensationFailed} && status == target)
    || (target == status == Confirmed)
  }

  /** With sweeps about, the record is pending, submitted under a transaction id, or confirmed. */
  predicate Plain(env: Env, record: Option<ExecutionRecord>) {
    record.Some? ==>
      && record.value.id.amount == env.amount
      && (env.reconcilers ==>
            && record.value.status in {PendingSubmit, Submitted, Confirmed}
            && (record.value.status == Submitted ==> record.value.externalTxnId.Some?))
  }

  ghost predicate TruthfulWorld(env: Env, w: World) {
    && OneSubmission(w) && Plain(env, w.record)
    && (forall i :: 0 <= i < |w.threads| ==> Discreet(env, w.record, w.threads[i]))
    && (Told(w) || exists i :: 0 <= i < |w.threads| && AboutToTell(w.threads[i]))
  }

  /** A discreet thread again, in a plain world; and what the operation was to be told is told or about to be. */
  predicate DiscreetStep(env: Env, w: World, t: Thread, next: (World, Point)) {
    var (w', q) := next;
    && Discreet(env, w'.record, t.(at := q)) && Plain(env, w'.record)
    && (AboutToTell(t) || Told(w) ==> AboutToTell(t.(at := q)) || Told(w'))
    && (AboutToTell(t.(at := q)) || Told(w') || !Told(w))
  }

  lemma DiscreetReceiving(env: Env, w: World, t: Thread, ch: Choice)
    requires Truthful(env) && Allowed(env, ch) && w.record.Some? && t.at.Calling?
    requires InPlace(w.record, t) && Discreet(env, w.record, t) && Plain(env, w.record)
    ensures DiscreetStep(env, w, t, Receiving(w, t.at.nonce, t.at.payload, ch.now))
  {
    assert env.reconcilers ==> ch.reply == Accepted && AmountDiffers !in env.reports;
    ReportDecides(w.record.value, t.at.nonce, t.at.payload);
  }

  lemma DiscreetAct(env: Env, base: ExecutionRecord, w: World, t: Thread, ch: Choice)
    requires Truthful(env) && base.id.amount == env.amount && base.status == PendingSubmit
    requires InPlace(w.record, t) && Discreet(env, w.record, t) && Allowed(env, ch) && Plain(env, w.record)
    ensures DiscreetStep(env, w, t, Act(base, w, t.at, ch))
  {
    if w.record.Some? && t.at.Calling? {
      DiscreetReceiving(env, w, t, ch);
    } else {
      assert env.reconcilers ==> ch.reply == Accepted;
    }
  }

  lemma OthersStayDiscreet(env: Env, base: ExecutionRecord, w: World, t: Thread, o: Thread, ch: Choice)
    requires Truthful(env) && base.id.amount == env.amount && base.status == PendingSubmit
    requires InPlace(w.record, t) && Discreet(env, w.record, t) && Allowed(env, ch) && Plain(env, w.record)
    requires InPlace(w.record, o) && Discreet(env, w.record, o)
    requires !(Holder(t) && Holder(o))
    ensures Discreet(env, Act(base, w, t.at, ch).0.record, o)
  {
    assert env.reconcilers ==> ch.reply == Accepted && AmountDiffers !in env.reports;
    if w.record.Some? && t.at.Calling? {
      ReportDecides(w.record.value, t.at.nonce, t.at.payload);
    }
  }

  lemma StepKeepsTruthful(env: Env, base: ExecutionRecord, w: World, e: Event)
    requires Truthful(env) && WellFormed(env, base) && TruthfulWorld(env, w) && Enabled(env, w, e)
    ensures TruthfulWorld(env, Next(base, w, e))
  {
    var t, w' := w.threads[e.thread], Next(base, w, e);
    StepKeepsOneSubmission(env, base, w, e);
    DiscreetAct(env, base, w, t, e.choice);
    forall i | 0 <= i < |w.threads| && i != e.thread
      ensures Discreet(env, w'.record, w'.threads[i])
    {
      OthersStayDiscreet(env, base, w, t, w.threads[i], e.choice);
    }
    if !Told(w') {
      if AboutToTell(t) || Told(w) {
        assert AboutToTell(w'.threads[e.thread]);
      } else {
        var i :| 0 <= i < |w.threads| && AboutToTell(w.threads[i]);
        assert w'.threads[i] == w.threads[i];
      }
    }
  }

  lemma {:induction false} RunStaysTruthful(env: Env, base: ExecutionRecord, ws: seq<World>, es: seq<Event>)
    requires Truthful(env) && WellFormed(env, base) && Run(env, base, ws, es)
    ensures TruthfulWorld(env, ws[|es|])
  {
    if es != [] {
      var n := |es| - 1;
      RunStaysTruthful(env, base, ws[..n + 1], es[..n]);
      StepKeepsTruthful(env, base, ws[n], es[n]);
    }
  }

  /** A submitter that has written SUBMITTED or FAILED_UNCERTAIN and not yet told the operation, and one other thread.
      */
  predicate Late(env: Env, w: World, other: Thread) {
    && w.record.Some? && w.record.value.status in {Submitted, FailedUncertain}
    && w.record.value.id.amount == env.amount && w.record.value.callbackNonce.None?
    && |w.threads| == 2 && w.threads[0].at == Recording(w.record.value.status) && w.threads[1] == other
  }

  /** The operation was handed off, and the submitter is still to speak. */
  predicate HandedOff(w: World) {
    && w.record.Some? && w.record.value.status in {Mismatched, CompensationFailed} && w.operation == OpHandoff
    && |w.threads| == 2 && w.threads[0].at in {Recording(Submitted), Recording(FailedUncertain)}
    && w.threads[1].at.Finished?
  }

  lemma LastWord(env: Env, base: ExecutionRecord, reach: iset<World>, v: World, ch: Choice) returns (w: World)
    requires Closed(env, base, reach) && v in reach && Allowed(env, ch) && HandedOff(v)
    ensures w in reach && AllReturned(w) && !Told(w)
  {
    w := Turn(env, base, reach, v, 0, ch, Finished(Some(v.record.value.id.executionId)), v.record.value.status,
              OpExecuted);
  }

  /** Before the submitter marks the operation executed, a callback with another amount hands it off. */
  lemma MismatchFirst(env: Env, base: ExecutionRecord, reach: iset<World>, v: World, ch: Choice) returns (w: World)
    requires Closed(env, base, reach) && v in reach && Allowed(env, ch) && env.amount.Some?
    requires Late(env, v, CallingBack("n", AmountDiffers, env.amount))
    ensures w in reach && HandedOff(w)
  {
    w := CallbackMoves(env, base, reach, v, 1, ch, "n", AmountDiffers);
  }

  /** The same with a failure report whose compensation fails. */
  lemma FailureFirst(env: Env, base: ExecutionRecord, reach: iset<World>, v: World, ch: Choice) returns (w: World)
    requires Closed(env, base, reach) && v in reach && Allowed(env, ch) && !ch.reversed
    requires Late(env, v, CallingBack("n", ReportsFailure, env.amount))
    ensures w in reach && HandedOff(w)
  {
    w := CallbackSettles(env, base, reach, v, 1, ch, "n");
  }

  /** The same with a sweep that judges the record a mismatch. */
  lemma SweepFirst(env: Env, base: ExecutionRecord, reach: iset<World>, v: World, ch: Choice) returns (w: World)
    requires Closed(env, base, reach) && v in reach && Allowed(env, ch)
    requires Late(env, v, Sweeping()) && Judge(v.record.value, ch.answer) == Judging(Mismatched)
    ensures w in reach && HandedOff(w)
  {
    w := SweepAsks(env, base, reach, v, 1, ch);
    w := SweepCloses(env, base, reach, w, 1, ch);
  }

  /** The same with a sweep that is told of a failure and whose compensation fails. */
  lemma SweepFailsFirst(env: Env, base: ExecutionRecord, reach: iset<World>, v: World, ch: Choice) returns (w: World)
    requires Closed(env, base, reach) && v in reach && Allowed(env, ch) && !ch.reversed
    requires Late(env, v, Sweeping()) && Judge(v.record.value, ch.answer) == Normalising
    ensures w in reach && HandedOff(w)
  {
    w := SweepAsks(env, base, reach, v, 1, ch);
    w := SweepReverses(env, base, reach, w, 1, ch);
    w := SettlerCloses(env, base, reach, w, 1, ch);
  }

  /** Two threads settle one failed dispatch with different results, and their last writes cross. */
  lemma SettlersCross(env: Env, base: ExecutionRecord, reach: iset<World>, ch: Choice) returns (w: World)
    requires Closed(env, base, reach) && WellFormed(env, base) && Allowed(env, ch) && !ch.reversed
    requires ch.reply == Refused && ReportsFailure in env.reports
    ensures w in reach && AllReturned(w) && !Told(w)
  {
    var threads := [Executing(), CallingBack("n", ReportsFailure, env.amount)];
    ReachReplied(env, base, reach, threads, ch);
    w := CallbackMoves(env, base, reach, Replied(base, threads, ch), 1, ch, "n", ReportsFailure);
    w := BothReverse(env, base, reach, w, ch);
    w := TwoSettle(env, base, reach, w, ch);
  }

  lemma BothReverse(env: Env, base: ExecutionRecord, reach: iset<World>, v: World, ch: Choice) returns (w: World)
    requires Closed(env, base, reach) && v in reach && Allowed(env, ch)
    requires v.record.Some? && v.record.value.status == FailedDispatched && |v.threads| == 2
    requires v.threads[0].at == Answered(Refused) && v.threads[1].at == ReadingBack
    ensures w in reach && w.record.Some? && w.record.value.status == FailedDispatched
    ensures |w.threads| == 2 && w.threads[0].at == Reversing && w.threads[1].at == Reversing
  {
    w := Turn(env, base, reach, v, 1, ch, Reversing, FailedDispatched, v.operation);
    w := Turn(env, base, reach, w, 0, ch, Reversing, FailedDispatched, w.operation);
  }

  lemma TwoSettle(env: Env, base: ExecutionRecord, reach: iset<World>, v: World, ch: Choice) returns (w: World)
    requires Closed(env, base, reach) && v in reach && Allowed(env, ch) && !ch.reversed
    requires v.record.Some? && v.record.value.status == FailedDispatched
    requires |v.threads| == 2 && v.threads[0].at == Reversing && v.threads[1].at == Reversing
    ensures w in reach && AllReturned(w) && !Told(w)
  {
    var op := v.operation;
    w := Turn(env, base, reach, v, 1, ch, Closing(false), FailedDispatched, op);
    w := Turn(env, base, reach, w, 0, ch.(reversed := true), Closing(true), FailedDispatched, op);
    w := CrossedWrites(env, base, reach, w, ch);
  }

  lemma CrossedWrites(env: Env, base: ExecutionRecord, reach: iset<World>, v: World, ch: Choice) returns (w: World)
    requires Closed(env, base, reach) && v in reach && Allowed(env, ch) && v.record.Some?
    requires |v.threads| == 2 && v.threads[0].at == Closing(true) && v.threads[1].at == Closing(false)
    ensures w in reach && AllReturned(w) && !Told(w)
  {
    var op, done := v.operation, Finished(Some(v.record.value.id.executionId));
    w := Turn(env, base, reach, v, 1, ch, Recording(CompensationFailed), CompensationFailed, op);
    w := Turn(env, base, reach, w, 0, ch, Recording(Compensated), Compensated, op);
    w := Turn(env, base, reach, w, 0, ch, done, Compensated, OpExecuted);
    w := Turn(env, base, reach, w, 1, ch, done, Compensated, OpHandoff);
  }

  /** A sweep of a record that its executor is still settling: both settle it, or the sweep judges it a mismatch. */
  lemma SweepCrosses(env: Env, base: ExecutionRecord, reach: iset<World>, ch: Choice) returns (w: World)
    requires Closed(env, base, reach) && WellFormed(env, base) && Allowed(env, ch) && !ch.reversed
    requires ch.reply == Refused && env.reconcilers
    ensures w in reach && AllReturned(w) && !Told(w)
  {
    w := ReachWritten(env, base, reach, [Executing(), Sweeping()], ch);
    var p := Judge(w.record.value, ch.answer);
    assert p == Reversing || p == Judging(Mismatched);
    w := SweepAsks(env, base, reach, w, 1, ch);
    if p == Reversing {
      w := TwoSettle(env, base, reach, w, ch);
    } else {
      w := ExecutorCompensates(env, base, reach, w, ch);
      w := SweepSpeaksFirst(env, base, reach, w, ch);
    }
  }

  lemma ExecutorCompensates(env: Env, base: ExecutionRecord, reach: iset<World>, v: World, ch: Choice)
    returns (w: World)
    requires Closed(env, base, reach) && v in reach && Allowed(env, ch)
    requires v.record.Some? && |v.threads| == 2 && v.threads[0].at == Reversing
    ensures w in reach && w.record.Some? && w.record.value.id == v.record.value.id
    ensures |w.threads| == 2 && w.threads[0].at == Recording(Compensated) && w.threads[1] == v.threads[1]
  {
    var st := v.record.value.status;
    w := Turn(env, base, reach, v, 0, ch.(reversed := true), Closing(true), st, v.operation);
    w := Turn(env, base, reach, w, 0, ch, Recording(Compensated), Compensated, w.operation);
  }

  /** The sweep overwrites the compensation and hands off; the executor has the last word. */
  lemma SweepSpeaksFirst(env: Env, base: ExecutionRecord, reach: iset<World>, v: World, ch: Choice) returns (w: World)
    requires Closed(env, base, reach) && v in reach && Allowed(env, ch) && v.record.Some?
    requires |v.threads| == 2 && v.threads[0].at == Recording(Compensated) && v.threads[1].at == Judging(Mismatched)
    ensures w in reach && AllReturned(w) && !Told(w)
  {
    w := SweepCloses(env, base, reach, v, 1, ch);
    var done := Finished(Some(v.record.value.id.executionId));
    w := Turn(env, base, reach, w, 0, ch, done, Mismatched, OpExecuted);
  }

  /** Once every thread has returned, the operation's status is the one its record's status stands for, in every
      interleaving, exactly in the truthful environments. Elsewhere a handoff to a human can be lost. */
  lemma ToldExactlyWhenTruthful(env: Env, base: ExecutionRecord)
    requires WellFormed(env, base)
    ensures (forall w :: Reachable(env, base, w) && AllReturned(w) ==> Told(w)) <==> Truthful(env)
  {
    if Truthful(env) {
      forall w | Reachable(env, base, w) && AllReturned(w)
        ensures Told(w)
      {
        var ws, es :| Run(env, base, ws, es) && ws[|ws| - 1] == w;
        RunStaysTruthful(env, base, ws, es);
      }
    } else {
      SomeHandoffIsLost(env, base);
    }
  }

  lemma SomeHandoffIsLost(env: Env, base: ExecutionRecord)
    requires WellFormed(env, base) && !Truthful(env)
    ensures exists w :: Reachable(env, base, w) && AllReturned(w) && !Told(w)
  {
    var reach := ReachableIsClosed(env, base);
    var w: World;
    if ReportsFailure in env.reports {
      w := FailureIsLost(env, base, reach);
    } else if AmountDiffers in env.reports && !(env.replies <= {Refused}) {
      var k, a :| k in env.replies && k != Refused && a in env.answers;
      w := MismatchIsLost(env, base, reach, Picking(k, a));
    } else {
      w := SweepIsLost(env, base, reach);
    }
  }

  lemma FailureIsLost(env: Env, base: ExecutionRecord, reach: iset<World>) returns (w: World)
    requires Closed(env, base, reach) && WellFormed(env, base) && ReportsFailure in env.reports
    ensures w in reach && AllReturned(w) && !Told(w)
  {
    var k, a :| k in env.replies && a in env.answers;
    var ch := Picking(k, a);
    if k == Refused {
      w := SettlersCross(env, base, reach, ch);
    } else {
      w := ReachWritten(env, base, reach, [Executing(), CallingBack("n", ReportsFailure, env.amount)], ch);
      w := FailureFirst(env, base, reach, w, ch);
      w := LastWord(env, base, reach, w, ch);
    }
  }

  lemma MismatchIsLost(env: Env, base: ExecutionRecord, reach: iset<World>, ch: Choice) returns (w: World)
    requires Closed(env, base, reach) && WellFormed(env, base) && Allowed(env, ch) && ch.reply != Refused
    requires AmountDiffers in env.reports
    ensures w in reach && AllReturned(w) && !Told(w)
  {
    w := ReachWritten(env, base, reach, [Executing(), CallingBack("n", AmountDiffers, env.amount)], ch);
    w := MismatchFirst(env, base, reach, w, ch);
    w := LastWord(env, base, reach, w, ch);
  }

  lemma SweepIsLost(env: Env, base: ExecutionRecord, reach: iset<World>) returns (w: World)
    requires Closed(env, base, reach) && WellFormed(env, base) && env.reconcilers
    requires !(env.replies <= {Accepted} && env.answers <= {SaysDone})
    ensures w in reach && AllReturned(w) && !Told(w)
  {
    var k, a :| k in env.replies && a in env.answers && (k != Accepted || a != SaysDone);
    if k == Refused {
      w := SweepCrosses(env, base, reach, Picking(k, a));
    } else {
      w := SweepOvertakes(env, base, reach, Picking(k, a));
    }
  }

  /** A sweep of a record whose submitter has not yet told the operation. */
  lemma SweepOvertakes(env: Env, base: ExecutionRecord, reach: iset<World>, ch: Choice) returns (w: World)
    requires Closed(env, base, reach) && WellFormed(env, base) && Allowed(env, ch) && !ch.reversed
    requires env.reconcilers && ch.reply != Refused && (ch.reply != Accepted || ch.answer != SaysDone)
    ensures w in reach && AllReturned(w) && !Told(w)
  {
    w := ReachWritten(env, base, reach, [Executing(), Sweeping()], ch);
    var p := Judge(w.record.value, ch.answer);
    assert p == Normalising || p == Judging(Mismatched);
    if p == Normalising {
      w := SweepFailsFirst(env, base, reach, w, ch);
    } else {
      w := SweepFirst(env, base, reach, w, ch);
    }
    w := LastWord(env, base, reach, w, ch);
  }
}
