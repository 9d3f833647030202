/** The conversation graph of one thread over any number of turns, with any model, any resume values and anything
    happening to the approval store between two steps
    (src/graph/builder.py, src/graph/nodes.py `_write_action`/`_execute`, src/graph/approval.py). */
module ApprovalGraph {
  import opened Wrappers
  import opened ExecutionTypes

  // ----- the store -----

  datatype Decision = Undecided | Approved | Rejected | TimedOut

  datatype Approval = Approval(
    tenantId: string, threadId: string, operationId: string, action: PendingAction, decision: Decision)

  datatype Op = Op(tenantId: string, threadId: string, action: PendingAction, status: OperationStatus)

  datatype Store = Store(approvals: map<string, Approval>, operations: map<string, Op>)

  /** Compare-and-set from undecided; a rejection closes the operation, unless it was executed or handed off. */
  function Decide(s: Store, tenantId: string, id: string, approved: bool, handoff: bool): Store {
    if id !in s.approvals || s.approvals[id].tenantId != tenantId || s.approvals[id].decision != Undecided then s
    else
      var a := s.approvals[id];
      s.(approvals := s.approvals[id := a.(decision := if approved then Approved else Rejected)],
         operations :=
           if approved || a.operationId !in s.operations || s.operations[a.operationId].tenantId != tenantId
              || s.operations[a.operationId].status in {OpExecuted, OpHandoff} then s.operations
           else s.operations[a.operationId :=
                               s.operations[a.operationId].(status := if handoff then OpHandoff else OpRejected)])
  }

  /** An undecided approval times out, and its operation is handed off unless it was executed. */
  function Expire(s: Store, id: string): Store {
    if id !in s.approvals || s.approvals[id].decision != Undecided then s
    else
      var a := s.approvals[id];
      s.(approvals := s.approvals[id := a.(decision := TimedOut)],
         operations :=
           if a.operationId !in s.operations || s.operations[a.operationId].tenantId != a.tenantId
              || s.operations[a.operationId].status == OpExecuted then s.operations
           else s.operations[a.operationId := s.operations[a.operationId].(status := OpHandoff)])
  }

  // ----- the graph -----

  datatype Intent = AskOrder | AskShipping | AskRefund | AskReturn | AskAddress | AskPolicy | Complain | AskOther

  datatype Node =
    | Classify
    | RouteByIntent
    | ReadOnly
    | AgenticRag
    | Escalate
    | Process(action: PendingAction)
    | HumanApproval
    // the execute node, before it reads the operation, before it reads the approval, and before it calls the engine;
    // `read` is the operation as it was read
    | Execute(action: PendingAction)
    | Checking(action: PendingAction, read: Op)
    | Calling(action: PendingAction, read: Op)
    | HandleError
    | Respond
    | Finished

  datatype AnswerStatus = StatusPending | StatusApproved | StatusRejected

  /** The part of the checkpointed state that routing and execution read. */
  datatype State = State(
    tenantId: string,
    threadId: string,
    intent: Option<Intent>,
    needsApproval: bool,
    approvalId: Option<string>,
    operationId: Option<string>,
    pendingAction: Option<PendingAction>,
    approvalStatus: AnswerStatus,
    model: Option<string>,
    fallsToError: bool)

  /** The outcome of a write node's checks: refused for any reason, or passed, with the operation that its
      idempotency key names and a fresh approval id. */
  datatype WriteResult = RefusedWrite | PassedWrite(operationId: string, approvalId: string)

  /** The value a suspended approval is resumed with. */
  datatype Resume = NotABoolean | Answer(approved: bool, handoff: bool)

  /** Everything a step takes from outside. */
  datatype Input = Input(
    intent: Intent,
    write: WriteResult,
    resume: Resume,
    writeCapable: bool,
    ragFailed: bool,
    outcome: OperationStatus,   // what the engine, or its failure, leaves the operation in
    handedOff: bool)

  datatype Call = Call(tenantId: string, threadId: string, operationId: string, action: PendingAction,
                       approvalId: Option<string>)

  datatype Thread = Thread(node: Node, state: State, calls: seq<Call>)

  function RouteIntent(intent: Option<Intent>): Node {
    match intent
    case Some(AskOrder) => ReadOnly
    case Some(AskShipping) => ReadOnly
    case Some(AskRefund) => Process(Refund)
    case Some(AskReturn) => Process(ReturnRequest)
    case Some(AskAddress) => Process(ReturnAddress)
    case Some(AskPolicy) => AgenticRag
    case Some(Complain) => Escalate
    case _ => Respond
  }

  function RouteWrite(st: State): Node {
    if st.needsApproval && st.approvalId.Some? && st.approvalId.value != "" then HumanApproval else HandleError
  }

  function RouteApproval(st: State): Node {
    if st.approvalStatus != StatusApproved then HandleError
    else
      match st.pendingAction
      case Some(Refund) => Execute(Refund)
      case Some(ReturnRequest) => Execute(ReturnRequest)
      case Some(ReturnAddress) => Execute(ReturnAddress)
      case _ => HandleError
  }

  function Written(st: State, action: PendingAction, w: WriteResult): State {
    match w
    case RefusedWrite => st.(needsApproval := false, fallsToError := true)
    case PassedWrite(op, approval) =>
      st.(needsApproval := true, pendingAction := Some(action), operationId := Some(op), approvalId := Some(approval),
          approvalStatus := StatusPending)
  }

  /** A passed write creates the operation if its key is new, and always a fresh approval. */
  function CreateForWrite(s: Store, st: State, action: PendingAction, w: WriteResult): Store {
    match w
    case RefusedWrite => s
    case PassedWrite(op, approval) =>
      Store(s.approvals[approval := Approval(st.tenantId, st.threadId, op, action, Undecided)],
            if op in s.operations then s.operations
            else s.operations[op := Op(st.tenantId, st.threadId, action, OpPending)])
  }

  function Answered(st: State, r: Resume): State {
    st.(approvalStatus := if r.Answer? && r.approved then StatusApproved else StatusRejected, needsApproval := false)
  }

  predicate Named(id: Option<string>) {
    id.Some? && id.value != ""
  }

  /** The checks on the operation: bound to this action and thread. */
  predicate OperationFits(st: State, action: PendingAction, op: Op) {
    op.action == action && op.threadId == st.threadId
  }

  /** The checks on the approval, made only when the state names one: approved, and bound alike. */
  predicate ApprovalFits(s: Store, st: State, action: PendingAction) {
    Named(st.approvalId) ==>
      && st.operationId.Some? && st.approvalId.value in s.approvals
      && var a := s.approvals[st.approvalId.value];
      && a.tenantId == st.tenantId && a.decision == Approved
      && a.operationId == st.operationId.value && a.threadId == st.threadId && a.action == action
  }

  predicate OpenStatus(status: OperationStatus) {
    status !in {OpExecuted, OpRejected, OpHandoff}
  }

  function Cleared(st: State): State {
    st.(needsApproval := false, pendingAction := None)
  }

  /** Looking up the approval to decide raises. */
  predicate DecisionRaises(s: Store, st: State) {
    || st.approvalId.None? || st.approvalId.value !in s.approvals
    || s.approvals[st.approvalId.value].tenantId != st.tenantId
  }

  /** The operation is there to be read. */
  predicate CanRead(s: Store, st: State) {
    st.operationId.Some? && st.operationId.value in s.operations
    && s.operations[st.operationId.value].tenantId == st.tenantId
  }

  /** The execute node reads the operation, raises, or gives up. */
  function ReadOperation(s: Store, t: Thread, action: PendingAction): Thread {
    var st := t.state;
    if st.tenantId == "" || !Named(st.operationId) then t.(node := Respond, state := Cleared(st))
    else if !CanRead(s, st) then t
    else
      var op := s.operations[st.operationId.value];
      if OperationFits(st, action, op) then t.(node := Checking(action, op))
      else t.(node := Respond, state := Cleared(st))
  }

  /** It reads the approval, and then goes by the model and by the operation as it was read. */
  function CheckApproval(s: Store, t: Thread, action: PendingAction, op: Op, capable: bool): Thread {
    var st := t.state;
    if Named(st.approvalId) && DecisionRaises(s, st) then t.(node := Execute(action))
    else if ApprovalFits(s, st, action) && (Named(st.model) ==> capable) && OpenStatus(op.status) then
      t.(node := Calling(action, op))
    else t.(node := Respond, state := Cleared(st))
  }

  /** One step of the thread. A node that raises leaves the thread before it. */
  function StepThread(s: Store, t: Thread, i: Input): (Store, Thread) {
    var st := t.state;
    match t.node
    case Classify => (s, t.(node := RouteByIntent, state := st.(intent := Some(i.intent))))
    case RouteByIntent => (s, t.(node := RouteIntent(st.intent)))
    case ReadOnly => (s, t.(node := Respond))
    case AgenticRag =>
      (s, t.(node := if i.ragFailed then HandleError else Respond, state := st.(fallsToError := i.ragFailed)))
    case Escalate => (s, t.(node := Respond))
    case Process(action) =>
      var st' := Written(st, action, i.write);
      (CreateForWrite(s, st, action, i.write), t.(node := RouteWrite(st'), state := st'))
    case HumanApproval =>
      var st' := Answered(st, i.resume);
      if DecisionRaises(s, st) then (s, t)
      else
        (Decide(s, st.tenantId, st.approvalId.value, i.resume.Answer? && i.resume.approved,
                i.resume.Answer? && i.resume.handoff),
         t.(node := RouteApproval(st'), state := st'))
    case Execute(action) => (s, ReadOperation(s, t, action))
    case Checking(action, op) => (s, CheckApproval(s, t, action, op, i.writeCapable))
    case Calling(action, _) =>
      if !CanRead(s, st) then (s, t.(node := Execute(action)))
      else
        var op := st.operationId.value;
        (s.(operations := s.operations[op := s.operations[op].(status := i.outcome)]),
         Thread(Respond, Cleared(st).(fallsToError := i.handedOff),
                t.calls + [Call(st.tenantId, st.threadId, op, action, st.approvalId)]))
    case HandleError => (s, t.(node := Respond, state := Cleared(st).(fallsToError := true)))
    case Respond => (s, t.(node := Finished))
    case Finished => (s, t)
  }

  // ----- runs -----

  /** What can happen next: a node of the thread; a new turn, which abandons a suspended one; or a change to the
      store by the approval API, the expiry job or another thread. */
  datatype Event =
    | Node(input: Input)
    | NewTurn(model: Option<string>)
    | ApiDecides(approvalId: string, approved: bool, handoff: bool)
    | Expires(approvalId: string)
    | Elsewhere(store: Store)

  /** Other threads never touch an existing approval except to decide it, nor the identity of an operation. */
  ghost predicate Foreign(s: Store, s': Store) {
    && (forall id :: id in s.approvals ==> id in s'.approvals && SameApproval(s.approvals[id], s'.approvals[id]))
    && (forall id :: id in s.operations ==>
          id in s'.operations && s'.operations[id] == s.operations[id].(status := s'.operations[id].status))
  }

  /** The same approval, decided if it was. */
  predicate SameApproval(a: Approval, b: Approval) {
    b == a.(decision := b.decision) && (a.decision != Undecided ==> b.decision == a.decision)
  }

  datatype World = World(store: Store, thread: Thread)

  /** New approval ids are fresh. */
  ghost predicate Enabled(w: World, e: Event) {
    match e
    case Node(input) =>
      w.thread.node.Process? && input.write.PassedWrite? ==>
        && input.write.approvalId !in w.store.approvals && input.write.approvalId != ""
    case Elsewhere(store) => Foreign(w.store, store)
    case _ => true
  }

  function Next(w: World, e: Event): World {
    match e
    case Node(input) => var (s, t) := StepThread(w.store, w.thread, input); World(s, t)
    case NewTurn(model) => w.(thread := w.thread.(node := Classify, state := w.thread.state.(model := model)))
    case ApiDecides(id, approved, handoff) =>
      w.(store := if id in w.store.approvals then Decide(w.store, w.store.approvals[id].tenantId, id, approved, handoff)
                  else w.store)
    case Expires(id) => w.(store := Expire(w.store, id))
    case Elsewhere(store) => w.(store := store)
  }

  function Fold<W, E>(next: (W, E) -> W, w: W, es: seq<E>): W {
    if es == [] then w else next(Fold(next, w, es[..|es| - 1]), es[|es| - 1])
  }

  function Stepping(): (World, Event) -> World {
    (w: World, e: Event) => Next(w, e)
  }

  /** Where a sequence of events leads. */
  function After(w: World, es: seq<Event>): World {
    Fold(Stepping(), w, es)
  }

  ghost predicate AllEnabled(w: World, es: seq<Event>) {
    forall i :: 0 <= i < |es| ==> Enabled(After(w, es[..i]), es[i])
  }

  predicate Starts(w: World) {
    && w.thread.node == Classify && w.thread.calls == []
    && !w.thread.state.needsApproval && w.thread.state.approvalId.None? && w.thread.state.pendingAction.None?
  }

  // ----- safety -----

  /** The approval the call went out under is approved, and is about this operation, thread and action. */
  predicate Covered(s: Store, c: Call) {
    && c.approvalId.Some? && c.approvalId.value in s.approvals
    && s.approvals[c.approvalId.value] == Approval(c.tenantId, c.threadId, c.operationId, c.action, Approved)
  }

  predicate Executing(n: Node) {
    n.Execute? || n.Checking? || n.Calling?
  }

  /** What the thread is bound to from the execute node on: its action, the operation it has read, and, once it is about
      to call, the approval that covers the call. */
  predicate Bound(s: Store, t: Thread) {
    && (Executing(t.node) ==> t.state.pendingAction == Some(t.node.action) && t.state.approvalStatus == StatusApproved)
    && (t.node.Checking? || t.node.Calling? ==>
          && CanRead(s, t.state)
          && s.operations[t.state.operationId.value] == t.node.read.(status :=
                                                          s.operations[t.state.operationId.value].status))
    && (t.node.Calling? ==> Covered(s, CallOf(t)) && OpenStatus(t.node.read.status))
  }

  /** An approval is named wherever one will be needed, the thread is bound, and every call so far is covered. */
  ghost predicate Safe(w: World) {
    && (w.thread.node == HumanApproval || Executing(w.thread.node) ==>
          Named(w.thread.state.approvalId) && w.thread.state.pendingAction.Some?)
    && Bound(w.store, w.thread)
    && (forall i :: 0 <= i < |w.thread.calls| ==> Covered(w.store, w.thread.calls[i]))
  }

  /** The call an execute node is about to make. */
  function CallOf(t: Thread): Call
    requires Executing(t.node) && t.state.operationId.Some?
  {
    Call(t.state.tenantId, t.state.threadId, t.state.operationId.value, t.node.action, t.state.approvalId)
  }

  /** No step, here or elsewhere, takes an approval back or rebinds it. */
  lemma ApprovalsAreFinal(w: World, e: Event, id: string)
    requires Enabled(w, e) && id in w.store.approvals
    ensures id in Next(w, e).store.approvals && SameApproval(w.store.approvals[id], Next(w, e).store.approvals[id])
  {
  }

  /** No step removes an operation or changes anything of it but its status. */
  lemma OperationsKeepIdentity(w: World, e: Event, id: string)
    requires Enabled(w, e) && id in w.store.operations
    ensures id in Next(w, e).store.operations
    ensures Next(w, e).store.operations[id]
            == w.store.operations[id].(status := Next(w, e).store.operations[id].status)
  {
  }

  /** So a call once covered, made or about to be made, stays covered. */
  lemma CoverLasts(w: World, e: Event, c: Call)
    requires Enabled(w, e) && Covered(w.store, c)
    ensures Covered(Next(w, e).store, c)
  {
    ApprovalsAreFinal(w, e, c.approvalId.value);
  }

  /** A step makes no call, or the one the thread was bound to. */
  predicate CallsBound(w: World, w': World) {
    || w'.thread.calls == w.thread.calls
    || (w.thread.node.Calling? && w.thread.state.operationId.Some?
        && w'.thread.calls == w.thread.calls + [CallOf(w.thread)])
  }

  lemma StepStaysBound(w: World, e: Event)
    requires Safe(w) && Enabled(w, e)
    ensures Bound(Next(w, e).store, Next(w, e).thread) && CallsBound(w, Next(w, e))
  {
    var st := w.thread.state;
    if w.thread.node.Checking? || w.thread.node.Calling? {
      OperationsKeepIdentity(w, e, st.operationId.value);
    }
    if w.thread.node.Calling? {
      CoverLasts(w, e, CallOf(w.thread));
    }
  }

  lemma StepKeepsSafe(w: World, e: Event)
    requires Safe(w) && Enabled(w, e)
    ensures Safe(Next(w, e))
  {
    var w' := Next(w, e);
    StepStaysBound(w, e);
    forall i | 0 <= i < |w'.thread.calls|
      ensures Covered(w'.store, w'.thread.calls[i])
    {
      assert Covered(w.store, w'.thread.calls[i]);
      CoverLasts(w, e, w'.thread.calls[i]);
    }
  }

  lemma {:induction false} RunStaysSafe(w: World, es: seq<Event>)
    requires Starts(w) && AllEnabled(w, es)
    ensures Safe(After(w, es))
  {
    if es != [] {
      var n := |es| - 1;
      PrefixEnabled(w, es, n);
      RunStaysSafe(w, es[..n]);
      StepKeepsSafe(After(w, es[..n]), es[n]);
    }
  }

  lemma PrefixEnabled(w: World, es: seq<Event>, n: nat)
    requires n <= |es| && AllEnabled(w, es)
    ensures AllEnabled(w, es[..n])
  {
    forall i | 0 <= i < n
      ensures Enabled(After(w, es[..n][..i]), es[..n][i])
    {
      assert es[..n][..i] == es[..i];
    }
  }

  /** Over any number of turns, with any model, any resume values and anything happening elsewhere, also while the
      execute node is at work: the engine has been called only under an approval that is approved (and stays so) and
      bound to that operation, thread and action; so never under one that was rejected or timed out. */
  lemma OnlyApprovedOperationsExecute(w: World, es: seq<Event>, c: Call)
    requires Starts(w) && AllEnabled(w, es) && c in After(w, es).thread.calls
    ensures Covered(After(w, es).store, c)
    ensures forall id :: (id in After(w, es).store.approvals
                          && After(w, es).store.approvals[id].decision in {Rejected, TimedOut}) ==>
              c.approvalId != Some(id)
  {
    RunStaysSafe(w, es);
  }

  // ----- who decided -----

  predicate UndecidedIn(s: Store, id: string) {
    id in s.approvals && s.approvals[id].decision == Undecided
  }

  /** The event says yes about this approval: a human's yes to the thread waiting for it, a yes through the approval
      API, or a change made elsewhere. */
  predicate SaysYes(w: World, e: Event, id: string) {
    match e
    case Node(input) =>
      && w.thread.node == HumanApproval && w.thread.state.approvalId == Some(id)
      && input.resume.Answer? && input.resume.approved
    case ApiDecides(decided, approved, _) => decided == id && approved
    case Elsewhere(_) => true
    case _ => false
  }

  /** The event takes the approval from undecided to approved, and says yes about it. */
  predicate ApprovedBy(w: World, e: Event, id: string) {
    && UndecidedIn(w.store, id) && SaysYes(w, e, id)
    && id in Next(w, e).store.approvals && Next(w, e).store.approvals[id].decision == Approved
  }

  /** One step of a thread that waits for a decision: an undecided approval ends approved if and only if the value it
      is resumed with is a yes, and the operation is left alone; any other value ends it rejected, closes an operation
      that is still open, as rejected or as handed off, and leads nowhere near the execute node. */
  lemma AnswerDecides(w: World, input: Input)
    requires w.thread.node == HumanApproval && w.thread.state.approvalId.Some?
    requires UndecidedIn(w.store, w.thread.state.approvalId.value)
    requires w.store.approvals[w.thread.state.approvalId.value].tenantId == w.thread.state.tenantId
    ensures var id, w' := w.thread.state.approvalId.value, Next(w, Node(input));
            var a, yes := w.store.approvals[id], input.resume.Answer? && input.resume.approved;
            && w'.store.approvals == w.store.approvals[id := a.(decision := if yes then Approved else Rejected)]
            && (yes ==> w'.store.operations == w.store.operations)
            && (w'.thread.node == HandleError || (yes && w'.thread.node.Execute?))
            && (!yes && a.operationId in w.store.operations
                && w.store.operations[a.operationId].tenantId == a.tenantId ==>
                  a.operationId in w'.store.operations
                  && w'.store.operations[a.operationId].status
                     == ClosedStatus(w.store.operations[a.operationId].status,
                                     input.resume.Answer? && input.resume.handoff))
  {
  }

  /** What a refusal leaves an operation in. */
  function ClosedStatus(status: OperationStatus, handoff: bool): OperationStatus {
    if status == OpExecuted || status == OpHandoff then status else if handoff then OpHandoff else OpRejected
  }

  /** An approval that stops being undecided was approved by a yes, refused by a no, or timed out. */
  lemma StepDecides(w: World, e: Event, id: string)
    requires Enabled(w, e) && UndecidedIn(w.store, id)
    ensures id in Next(w, e).store.approvals
    ensures Next(w, e).store.approvals[id].decision == Approved ==> ApprovedBy(w, e, id)
    ensures e == Expires(id) ==> Next(w, e).store.approvals[id].decision == TimedOut
    ensures forall approved, handoff :: e == ApiDecides(id, approved, handoff) ==>
              Next(w, e).store.approvals[id].decision == if approved then Approved else Rejected
  {
    ApprovalsAreFinal(w, e, id);
  }

  /** An approval that times out hands its operation to a human, unless that was executed. */
  lemma ExpiryHandsOff(w: World, id: string)
    requires UndecidedIn(w.store, id)
    ensures var a, s := w.store.approvals[id], Next(w, Expires(id)).store;
            && s.approvals == w.store.approvals[id := a.(decision := TimedOut)]
            && (a.operationId in w.store.operations && w.store.operations[a.operationId].tenantId == a.tenantId ==>
                  a.operationId in s.operations
                  && s.operations[a.operationId].status
                     == if w.store.operations[a.operationId].status == OpExecuted then OpExecuted else OpHandoff)
  {
  }

  /** The approval was undecided at some moment of the run. */
  ghost predicate OnceUndecided(w: World, es: seq<Event>, id: string) {
    exists j :: 0 <= j <= |es| && UndecidedIn(After(w, es[..j]).store, id)
  }

  ghost predicate OnceOpen(w: World, es: seq<Event>, id: Option<string>) {
    id.Some? ==> OnceUndecided(w, es, id.value)
  }

  lemma OnceOpenStays(w: World, es: seq<Event>, n: nat, id: Option<string>)
    requires n <= |es| && OnceOpen(w, es[..n], id)
    ensures OnceOpen(w, es, id)
  {
    if id.Some? {
      var j :| 0 <= j <= n && UndecidedIn(After(w, es[..n][..j]).store, id.value);
      assert es[..n][..j] == es[..j];
    }
  }

  /** The thread names approvals that were undecided in this run, and calls under these only. */
  ghost predicate NamesOpen(w: World, es: seq<Event>) {
    && OnceOpen(w, es, After(w, es).thread.state.approvalId)
    && forall c :: c in After(w, es).thread.calls ==> OnceOpen(w, es, c.approvalId)
  }

  /** A step names the approval it has just created, undecided, or the one named before; and so do its calls. */
  lemma StepNames(v: World, e: Event)
    ensures var u := Next(v, e);
            && (u.thread.state.approvalId == v.thread.state.approvalId
                || (u.thread.state.approvalId.Some? && UndecidedIn(u.store, u.thread.state.approvalId.value)))
            && (forall c :: c in u.thread.calls ==> c in v.thread.calls || c.approvalId == v.thread.state.approvalId)
  {
  }

  lemma {:induction false} RunNamesOpen(w: World, es: seq<Event>)
    requires Starts(w)
    ensures NamesOpen(w, es)
  {
    if es != [] {
      var n := |es| - 1;
      RunNamesOpen(w, es[..n]);
      var v, u := After(w, es[..n]), After(w, es);
      StepNames(v, es[n]);
      OnceOpenStays(w, es, n, v.thread.state.approvalId);
      assert es[..|es|] == es;
      forall c | c in u.thread.calls
        ensures OnceOpen(w, es, c.approvalId)
      {
        if c in v.thread.calls {
          OnceOpenStays(w, es, n, c.approvalId);
        }
      }
    }
  }

  /** Whatever was undecided and is approved was approved by some event of the run, with a yes. */
  lemma {:induction false} SomeoneApproved(w: World, es: seq<Event>, id: string, j: nat) returns (k: nat)
    requires AllEnabled(w, es) && j <= |es| && UndecidedIn(After(w, es[..j]).store, id)
    requires id in After(w, es).store.approvals && After(w, es).store.approvals[id].decision == Approved
    ensures j <= k < |es| && ApprovedBy(After(w, es[..k]), es[k], id)
  {
    assert es[..|es|] == es;
    var n := |es| - 1;
    PrefixEnabled(w, es, n);
    var v := After(w, es[..n]);
    assert es[..n][..j] == es[..j];
    StillThere(w, es[..n], id, j);
    ApprovalsAreFinal(v, es[n], id);
    if UndecidedIn(v.store, id) {
      StepDecides(v, es[n], id);
      k := n;
    } else {
      k := SomeoneApproved(w, es[..n], id, j);
      assert es[..n][..k] == es[..k];
    }
  }

  lemma {:induction false} StillThere(w: World, es: seq<Event>, id: string, j: nat)
    requires AllEnabled(w, es) && j <= |es| && id in After(w, es[..j]).store.approvals
    ensures id in After(w, es).store.approvals
  {
    if j == |es| {
      assert es[..j] == es;
    } else {
      var n := |es| - 1;
      PrefixEnabled(w, es, n);
      assert es[..n][..j] == es[..j];
      StillThere(w, es[..n], id, j);
      ApprovalsAreFinal(After(w, es[..n]), es[n], id);
    }
  }

  /** Behind every call there is a yes: at some event of the run before it, its approval was undecided, and that event
      approved it by saying so: a human's yes to this thread, a yes through the API, or a change made elsewhere. */
  lemma EveryCallWasAnsweredYes(w: World, es: seq<Event>, c: Call) returns (k: nat)
    requires Starts(w) && AllEnabled(w, es) && c in After(w, es).thread.calls
    ensures c.approvalId.Some? && k < |es| && ApprovedBy(After(w, es[..k]), es[k], c.approvalId.value)
  {
    RunStaysSafe(w, es);
    RunNamesOpen(w, es);
    var j :| 0 <= j <= |es| && UndecidedIn(After(w, es[..j]).store, c.approvalId.value);
    k := SomeoneApproved(w, es, c.approvalId.value, j);
  }

  // ----- the way to the execute node -----

  /** Only the three write intents lead to a write, each to its own. */
  lemma OnlyWriteIntentsWrite(w: World, input: Input, action: PendingAction)
    requires w.thread.node == RouteByIntent
    ensures Next(w, Node(input)).thread.node == Process(action)
       <==> || (action == Refund && w.thread.state.intent == Some(AskRefund))
            || (action == ReturnRequest && w.thread.state.intent == Some(AskReturn))
            || (action == ReturnAddress && w.thread.state.intent == Some(AskAddress))
  {
  }

  /** A write that passes its checks asks for approval of exactly that operation and action, and a refused one asks for
      nothing and ends in an error; neither touches an operation that is there. */
  lemma WriteAsksFirst(w: World, input: Input)
    requires w.thread.node.Process? && Enabled(w, Node(input))
    ensures var w', st := Next(w, Node(input)), w.thread.state;
            && (forall o :: o in w.store.operations ==>
                  o in w'.store.operations && w'.store.operations[o] == w.store.operations[o])
            && (input.write.RefusedWrite? ==> w'.store == w.store && w'.thread.node == HandleError)
            && (input.write.PassedWrite? ==>
                  && w'.thread.node == HumanApproval && w'.thread.state.approvalId == Some(input.write.approvalId)
                  && w'.thread.state.operationId == Some(input.write.operationId)
                  && w'.store.approvals == w.store.approvals[input.write.approvalId :=
                       Approval(st.tenantId, st.threadId, input.write.operationId, w.thread.node.action, Undecided)])
  {
  }

  /** The execute node goes on only with an operation of its own tenant, thread and action; and it comes to its call
      only by its checks: a model that may write, if one is named, and an operation that was open when it was read. */
  lemma OnlyCheckedCalls(w: World, e: Event)
    requires Safe(w) && Enabled(w, e)
    ensures var u := Next(w, e);
            && (w.thread.node.Execute? && u.thread.node.Checking? ==>
                  && e.Node? && u.thread.node.action == w.thread.node.action && CanRead(w.store, w.thread.state)
                  && u.thread.node.read == w.store.operations[w.thread.state.operationId.value]
                  && u.thread.node.read.tenantId == w.thread.state.tenantId
                  && u.thread.node.read.threadId == w.thread.state.threadId
                  && u.thread.node.read.action == w.thread.node.action)
            && (!w.thread.node.Calling? && u.thread.node.Calling? ==>
                  && e.Node? && w.thread.node == Checking(u.thread.node.action, u.thread.node.read)
                  && (w.thread.state.model.Some? && w.thread.state.model.value != "" ==> e.input.writeCapable)
                  && u.thread.node.read.status !in {OpExecuted, OpRejected, OpHandoff})
  {
  }

  // ----- the operation's status at the call -----

  predicate Makes(w: World, e: Event) {
    e.Node? && w.thread.node.Calling? && CanRead(w.store, w.thread.state)
  }

  /** The thread's current pass through its execute node began with event k, which read the operation as `read`; all
      events since, if they are the thread's own, leave the store alone. */
  ghost predicate ReadAt(w: World, es: seq<Event>, k: nat, n: nat, id: string, read: Op)
    requires n <= |es|
  {
    && k < n && es[k].Node? && After(w, es[..k]).thread.node.Execute?
    && id in After(w, es[..k]).store.operations && After(w, es[..k]).store.operations[id] == read
    && ((forall j :: k < j < n ==> es[j].Node?) ==> After(w, es[..n]).store == After(w, es[..k]).store)
  }

  /** A thread that has read an operation read it at some event of the run. */
  lemma {:induction false} SomeRead(w: World, es: seq<Event>, n: nat) returns (k: nat)
    requires Starts(w) && AllEnabled(w, es) && n <= |es|
    requires var node := After(w, es[..n]).thread.node; node.Checking? || node.Calling?
    ensures After(w, es[..n]).thread.state.operationId.Some?
    ensures ReadAt(w, es, k, n, After(w, es[..n]).thread.state.operationId.value, After(w, es[..n]).thread.node.read)
    decreases n
  {
    assert es[..0] == [];
    var m := n - 1;
    var v := After(w, es[..m]);
    LastStep(w, es, m);
    PrefixEnabled(w, es, m);
    RunStaysSafe(w, es[..m]);
    ReadsOrHasRead(v, es[m]);
    if v.thread.node.Execute? {
      k := m;
    } else {
      k := SomeRead(w, es, m);
      ReadOneEarlier(w, es, k, m, v.thread.state.operationId.value, v.thread.node.read);
    }
  }

  /** A step into the part of the execute node that has read the operation: the read itself, or a later step. */
  lemma ReadsOrHasRead(v: World, e: Event)
    requires Safe(v) && var node := Next(v, e).thread.node; node.Checking? || node.Calling?
    ensures var u := Next(v, e);
            && u.thread.state.operationId.Some? && u.thread.state.operationId == v.thread.state.operationId
            && (e.Node? ==> u.store == v.store)
            && var id := u.thread.state.operationId.value;
               if v.thread.node.Execute? then
                 e.Node? && id in v.store.operations && v.store.operations[id] == u.thread.node.read
               else (v.thread.node.Checking? || v.thread.node.Calling?) && v.thread.node.read == u.thread.node.read
  {
  }

  /** What was read before the last event was read before it still. */
  lemma ReadOneEarlier(w: World, es: seq<Event>, k: nat, m: nat, id: string, read: Op)
    requires m < |es| && ReadAt(w, es, k, m, id, read)
    requires es[m].Node? ==> After(w, es[..m + 1]).store == After(w, es[..m]).store
    ensures ReadAt(w, es, k, m + 1, id, read)
  {
  }

  lemma LastStep(w: World, es: seq<Event>, m: nat)
    requires m < |es|
    ensures After(w, es[..m + 1]) == Next(After(w, es[..m]), es[m])
  {
    assert es[..m + 1][..m] == es[..m];
  }

  /** Every call is covered, and the operation was neither executed, nor rejected, nor handed off when the execute node
      read it; at the call itself it still is if only the thread itself has moved since. */
  lemma CalledOperationWasOpen(w: World, es: seq<Event>, n: nat) returns (k: nat)
    requires Starts(w) && AllEnabled(w, es) && n < |es| && Makes(After(w, es[..n]), es[n])
    ensures var v := After(w, es[..n]);
            && v.thread.state.operationId.Some? && Covered(v.store, CallOf(v.thread))
            && ReadAt(w, es, k, n, v.thread.state.operationId.value, v.thread.node.read)
            && OpenStatus(v.thread.node.read.status)
            && ((forall j :: k < j < n ==> es[j].Node?) ==>
                  v.thread.state.operationId.value in v.store.operations
                  && OpenStatus(v.store.operations[v.thread.state.operationId.value].status))
  {
    PrefixEnabled(w, es, n);
    RunStaysSafe(w, es[..n]);
    k := SomeRead(w, es, n);
  }

  /** Some run from w leads to v. */
  ghost predicate Reached(w: World, v: World) {
    exists es: seq<Event> :: AllEnabled(w, es) && After(w, es) == v
  }

  lemma Extend(w: World, v: World, e: Event)
    requires Reached(w, v) && Enabled(v, e)
    ensures Reached(w, Next(v, e))
  {
    var es :| AllEnabled(w, es) && After(w, es) == v;
    var fs := es + [e];
    assert fs[..|es|] == es && fs[..|es| + 1] == fs;
    LastStep(w, fs, |es|);
    forall i | 0 <= i < |fs|
      ensures Enabled(After(w, fs[..i]), fs[i])
    {
      assert i < |es| ==> fs[..i] == es[..i];
    }
  }

  /** A set of worlds that contains w and every world a run from w leads to. */
  ghost predicate Closed(w: World, reach: iset<World>) {
    w in reach && forall v, e {:trigger Next(v, e)} :: v in reach && Enabled(v, e) ==> Next(v, e) in reach
  }

  lemma ReachedIsClosed(w: World) returns (reach: iset<World>)
    ensures reach == iset v | Reached(w, v)
    ensures Closed(w, reach)
  {
    reach := iset v | Reached(w, v);
    var none: seq<Event> := [];
    assert AllEnabled(w, none) && After(w, none) == w;
    forall v, e | v in reach && Enabled(v, e)
      ensures Next(v, e) in reach
    {
      Extend(w, v, e);
    }
  }

  const PLAIN := Input(AskRefund, RefusedWrite, Answer(true, false), true, false, OpExecuted, false)

  /** The thread asks for a refund; the write passes and creates an approval. */
  lemma Asks(w: World, reach: iset<World>, v: World, op: string, approval: string) returns (u: World)
    requires Closed(w, reach) && v in reach && v.thread.node == Classify
    requires approval != "" && approval !in v.store.approvals
    ensures u in reach && u.thread.node == HumanApproval && u.thread.calls == v.thread.calls
    ensures u.thread.state == Written(v.thread.state.(intent := Some(AskRefund)), Refund, PassedWrite(op, approval))
    ensures u.store == CreateForWrite(v.store, v.thread.state, Refund, PassedWrite(op, approval))
  {
    u := Next(v, Node(PLAIN));
    u := Next(u, Node(PLAIN));
    var passed := Node(PLAIN.(write := PassedWrite(op, approval)));
    u := Next(u, passed);
  }

  /** Ready to execute, with another approval of the same operation still undecided. */
  predicate Doubled(v: World, other: string) {
    var st := v.thread.state;
    && v.thread.node == Execute(Refund) && st.tenantId != "" && Named(st.operationId) && st.model.None?
    && CanRead(v.store, st) && OperationFits(st, Refund, v.store.operations[st.operationId.value])
    && v.store.operations[st.operationId.value].status == OpPending && Named(st.approvalId)
    && !DecisionRaises(v.store, st) && ApprovalFits(v.store, st, Refund)
    && other in v.store.approvals && v.store.approvals[other].decision == Undecided
    && v.store.approvals[other].operationId == st.operationId.value && v.store.approvals[other].tenantId == st.tenantId
  }

  /** The other approval expires after the read: the operation is handed off, and then the engine is called for it. */
  lemma HandedOffBeforeTheCall(w: World, reach: iset<World>, v: World, other: string) returns (u: World)
    requires Closed(w, reach) && v in reach && Doubled(v, other)
    ensures u in reach && Makes(u, Node(PLAIN))
    ensures u.store.operations[u.thread.state.operationId.value].status == OpHandoff
  {
    u := Next(v, Node(PLAIN));
    u := Next(u, Node(PLAIN));
    u := Next(u, Expires(other));
  }

  /** Two turns ask for the same operation, the second one is approved. */
  lemma ReachDoubled(w: World, reach: iset<World>) returns (v: World)
    requires Closed(w, reach) && Starts(w) && w.store == Store(map[], map[]) && w.thread.state.tenantId != ""
    ensures v in reach && Doubled(v, "a")
  {
    v := Asks(w, reach, w, "o", "a");
    v := Next(v, NewTurn(None));
    v := Asks(w, reach, v, "o", "b");
    v := Next(v, Node(PLAIN));
  }

  /** The thread is about to call the engine for an operation that has been handed to a human. */
  predicate CallsHandedOff(v: World) {
    Makes(v, Node(PLAIN)) && v.store.operations[v.thread.state.operationId.value].status == OpHandoff
    && Next(v, Node(PLAIN)).thread.calls == v.thread.calls + [CallOf(v.thread)]
  }

  lemma ReachHandedOffCall(w: World, reach: iset<World>) returns (v: World)
    requires Closed(w, reach) && Starts(w) && w.store == Store(map[], map[]) && w.thread.state.tenantId != ""
    ensures v in reach && CallsHandedOff(v)
  {
    v := ReachDoubled(w, reach);
    v := HandedOffBeforeTheCall(w, reach, v, "a");
  }

  /** So it can happen that the engine is called for such an operation. */
  lemma HandedOffOperationIsCalled(w: World) returns (v: World)
    requires Starts(w) && w.store == Store(map[], map[]) && w.thread.state.tenantId != ""
    ensures Reached(w, v) && CallsHandedOff(v)
  {
    var reach := ReachedIsClosed(w);
    v := ReachHandedOffCall(w, reach);
  }
}
