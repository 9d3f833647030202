/** The retrieval subgraph as a step machine: any model, any retriever (src/graph/rag.py), and what the reply node
    makes of its result (src/graph/nodes.py `generate_response_node`). */
module RagGraph {
  import opened Wrappers

  const RELEVANCE_THRESHOLD: int := 7
  const RAG_MAX_RETRIES: nat := 3
  const HALLUCINATION_MAX_RETRIES: nat := 2

  datatype Node = Initialize | Rewrite | RouteRetrieval | Search | Grade | Generate | CheckAnswer | End | Aborted

  datatype Verdict = Verdict(faithful: bool)

  datatype Strategy = RewriteAndRetry | RegenerateFromSources

  /** The subgraph's part of the state. `graded` and `judged` are history: the best score of the current documents,
      and the answer and documents the last check was about. No node reads them. */
  datatype Rag = Rag(
    tenantId: string,
    message: string,
    query: Option<string>,
    docs: seq<string>,
    answer: Option<string>,
    check: Option<Verdict>,
    correcting: bool,
    strategy: Option<Strategy>,
    error: bool,
    ragAttempts: nat,
    hallucinationAttempts: nat,
    graded: Option<int>,
    judged: Option<(string, seq<string>)>)

  /** What a model call comes to: a value, an LLMError, which the node catches, or any other exception, which it does
      not. */
  datatype Reply<T> = Returned(value: T) | ModelError | Uncaught

  /** What a check that returns may say. */
  datatype Check = IllFormed | Judged(faithful: bool)

  /** Everything the model and the retriever do, by visit. A search or a grading that raises is None: the one is always
      caught, the other never. */
  datatype Oracle = Oracle(
    rewrite: nat -> Reply<string>,
    search: nat -> Option<seq<string>>,
    grade: (nat, string, string) -> Option<int>,
    generate: nat -> Reply<string>,
    check: nat -> Reply<Check>)

  /** The best of the scores, or None when grading some document raises. */
  function BestScore(o: Oracle, visit: nat, query: string, docs: seq<string>): (best: Option<int>)
    requires docs != []
    ensures best.None? <==> exists i :: 0 <= i < |docs| && o.grade(visit, query, docs[i]).None?
  {
    var n := |docs| - 1;
    var last := o.grade(visit, query, docs[n]);
    if n == 0 then last
    else
      var rest := BestScore(o, visit, query, docs[..n]);
      if rest.None? || last.None? then None
      else Some(if last.value > rest.value then last.value else rest.value)
  }

  function Query(s: Rag): string {
    OrElse(s.query, Some(s.message)).value
  }

  function Init(s: Rag): Rag {
    Rag(s.tenantId, s.message, None, [], None, None, false, None, false, 0, 0, None, None)
  }

  /** None, here and below, when an exception leaves the node. */
  function RewriteStep(o: Oracle, visit: nat, s: Rag): Option<Rag> {
    match o.rewrite(visit)
    case Returned(q) => Some(s.(query := Some(q)))
    case ModelError => Some(s.(query := None, error := true))
    case Uncaught => None
  }

  function SearchStep(o: Oracle, visit: nat, s: Rag): Rag {
    var found := if s.tenantId == "" then None else o.search(visit);
    if found.None? then s.(docs := [], error := true, graded := None) else s.(docs := found.value, graded := None)
  }

  function Fail(s: Rag): Rag {
    s.(error := true, correcting := false, strategy := None)
  }

  function Settle(s: Rag): Rag {
    s.(error := false, correcting := false, strategy := None)
  }

  function GradeStep(o: Oracle, visit: nat, s: Rag): Option<Rag> {
    if s.error || s.docs == [] then Some(Fail(s))
    else
      match BestScore(o, visit, Query(s), s.docs)
      case None => None
      case Some(best) =>
        var g := s.(graded := Some(best));
        if best >= RELEVANCE_THRESHOLD then Some(Settle(g))
        else if s.ragAttempts < RAG_MAX_RETRIES then
          Some(g.(ragAttempts := s.ragAttempts + 1, correcting := true,
                  strategy := Some(RewriteAndRetry), error := false))
        else Some(Fail(g))
  }

  function GenerateStep(o: Oracle, visit: nat, s: Rag): Option<Rag> {
    match o.generate(visit)
    case Returned(a) => Some(Settle(s.(answer := Some(a), check := None, judged := None)))
    case ModelError => Some(Fail(s.(answer := None, check := None, judged := None)))
    case Uncaught => None
  }

  function CheckStep(o: Oracle, visit: nat, s: Rag): Option<Rag> {
    var refused := Fail(s.(check := Some(Verdict(false))));
    if s.answer.None? || s.answer.value == "" then Some(refused)
    else
      match o.check(visit)
      case Uncaught => None
      case ModelError => Some(refused)
      case Returned(IllFormed) => Some(refused)
      case Returned(Judged(faithful)) =>
        var t := s.(check := Some(Verdict(faithful)), judged := Some((s.answer.value, s.docs)));
        if faithful then Some(Settle(t))
        else if s.hallucinationAttempts < HALLUCINATION_MAX_RETRIES then
          Some(t.(hallucinationAttempts := s.hallucinationAttempts + 1, correcting := true,
                  strategy := Some(RegenerateFromSources), error := false))
        else Some(Fail(t))
  }

  datatype At = At(node: Node, state: Rag)

  /** One node visit and the edge taken after it. */
  function Visit(o: Oracle, visit: nat, a: At): At {
    var s := a.state;
    match a.node
    case Initialize => At(Rewrite, Init(s))
    case Rewrite => Taking(s, RewriteStep(o, visit, s), RouteRetrieval)
    case RouteRetrieval => At(Search, s)
    case Search => At(Grade, SearchStep(o, visit, s))
    case Grade =>
      var t := GradeStep(o, visit, s);
      Taking(s, t, if t.None? || t.value.error then End
                   else if t.value.correcting && t.value.strategy == Some(RewriteAndRetry) then Rewrite
                   else Generate)
    case Generate => Taking(s, GenerateStep(o, visit, s), CheckAnswer)
    case CheckAnswer =>
      var t := CheckStep(o, visit, s);
      Taking(s, t, if t.None? || t.value.error then End
                   else if t.value.correcting && t.value.strategy == Some(RegenerateFromSources) then Generate
                   else End)
    case _ => a
  }

  /** The edge to the next node, or out of the graph when an exception left this one. */
  function Taking(s: Rag, t: Option<Rag>, next: Node): At {
    match t
    case None => At(Aborted, s)
    case Some(u) => At(next, u)
  }

  /** `n` steps, each told how many went before. */
  function Iterate<T>(step: (nat, T) -> T, x: T, n: nat): T {
    if n == 0 then x else step(n - 1, Iterate(step, x, n - 1))
  }

  lemma {:induction false} IterateKeeps<T(!new)>(step: (nat, T) -> T, x: T, inv: (nat, T) -> bool, n: nat)
    requires inv(0, x) && forall v: nat, t :: inv(v, t) ==> inv(v + 1, step(v, t))
    ensures inv(n, Iterate(step, x, n))
  {
    if n > 0 {
      IterateKeeps(step, x, inv, n - 1);
    }
  }

  function Visiting(o: Oracle): (nat, At) -> At {
    (v: nat, a: At) => Visit(o, v, a)
  }

  /** After `n` node visits. */
  function Run(o: Oracle, start: Rag, n: nat): At {
    Iterate(Visiting(o), At(Initialize, start), n)
  }

  /** The most visits still to come. */
  function Remaining(a: At): int {
    var again := 4 * (RAG_MAX_RETRIES - a.state.ragAttempts);
    var checks := 2 * (HALLUCINATION_MAX_RETRIES + 1 - a.state.hallucinationAttempts);
    match a.node
    case Initialize => 23
    case Rewrite => again + checks + 4
    case RouteRetrieval => again + checks + 3
    case Search => again + checks + 2
    case Grade => again + checks + 1
    case Generate => checks
    case CheckAnswer => checks - 1
    case _ => 0
  }

  ghost predicate Relevant(s: Rag) {
    s.docs != [] && s.graded.Some? && s.graded.value >= 7
  }

  /** What holds before each node: attempts within their limits, and documents found relevant once generation starts. */
  ghost predicate OnTrack(a: At) {
    && (a.node != Initialize ==>
          a.state.ragAttempts <= RAG_MAX_RETRIES && a.state.hallucinationAttempts <= HALLUCINATION_MAX_RETRIES)
    && (a.node in {Rewrite, RouteRetrieval, Search, Grade} ==>
          a.state.hallucinationAttempts == 0 && a.state.answer.None?)
    && (a.node in {Generate, CheckAnswer} ==> Relevant(a.state))
    && (a.node == End && !a.state.error ==> Verified(a.state))
  }

  /** Relevant documents, a non-empty answer, and a check that found this very answer faithful to these documents. */
  ghost predicate Verified(s: Rag) {
    && Relevant(s) && s.answer.Some? && s.answer.value != ""
    && s.check == Some(Verdict(true)) && s.judged == Some((s.answer.value, s.docs))
  }

  predicate Over(a: At) {
    a.node in {End, Aborted}
  }

  lemma VisitKeepsTrack(o: Oracle, visit: nat, a: At)
    requires OnTrack(a)
    ensures OnTrack(Visit(o, visit, a))
    ensures Over(a) || Remaining(Visit(o, visit, a)) < Remaining(a)
  {
    if a.node == Grade {
      GradeKeepsTrack(o, visit, a.state);
    } else if a.node == CheckAnswer {
      CheckKeepsTrack(o, visit, a.state);
    }
  }

  lemma GradeKeepsTrack(o: Oracle, visit: nat, s: Rag)
    requires OnTrack(At(Grade, s))
    ensures OnTrack(Visit(o, visit, At(Grade, s)))
    ensures Remaining(Visit(o, visit, At(Grade, s))) < Remaining(At(Grade, s))
  {
  }

  lemma CheckKeepsTrack(o: Oracle, visit: nat, s: Rag)
    requires OnTrack(At(CheckAnswer, s))
    ensures OnTrack(Visit(o, visit, At(CheckAnswer, s)))
    ensures Remaining(Visit(o, visit, At(CheckAnswer, s))) < Remaining(At(CheckAnswer, s))
  {
  }

  /** On track and within the bound after `n` visits. */
  ghost predicate InTime(a: At, n: nat) {
    OnTrack(a) && (Over(a) || Remaining(a) + n <= 23)
  }

  lemma VisitKeepsTime(o: Oracle, visit: nat, a: At, n: nat)
    requires InTime(a, n)
    ensures InTime(Visit(o, visit, a), n + 1)
  {
    VisitKeepsTrack(o, visit, a);
  }

  lemma RunKeepsTrack(o: Oracle, start: Rag, n: nat)
    ensures InTime(Run(o, start, n), n)
  {
    var inv := (v: nat, a: At) => InTime(a, v);
    forall v: nat, a | inv(v, a)
      ensures inv(v + 1, Visiting(o)(v, a))
    {
      VisitKeepsTime(o, v, a, v);
    }
    IterateKeeps(Visiting(o), At(Initialize, start), inv, n);
  }

  /** The visit calls the model, and the call raises what the node does not catch. */
  ghost predicate MeetsUncaught(o: Oracle, visit: nat, a: At) {
    match a.node
    case Rewrite => o.rewrite(visit).Uncaught?
    case Grade =>
      !a.state.error && exists i :: 0 <= i < |a.state.docs| && o.grade(visit, Query(a.state), a.state.docs[i]).None?
    case Generate => o.generate(visit).Uncaught?
    case CheckAnswer => a.state.answer.Some? && a.state.answer.value != "" && o.check(visit).Uncaught?
    case _ => false
  }

  lemma AbortedByOneVisit(o: Oracle, visit: nat, a: At)
    ensures Visit(o, visit, a).node == Aborted <==> a.node == Aborted || MeetsUncaught(o, visit, a)
  {
  }

  ghost predicate MeetsUncaughtAt(o: Oracle, start: Rag, v: nat) {
    MeetsUncaught(o, v, Run(o, start, v))
  }

  lemma AbortedByLastVisit(o: Oracle, start: Rag, n: nat)
    ensures Run(o, start, n + 1).node == Aborted <==> Run(o, start, n).node == Aborted || MeetsUncaughtAt(o, start, n)
  {
    AbortedByOneVisit(o, n, Run(o, start, n));
    assert Run(o, start, n + 1) == Visiting(o)(n, Run(o, start, n));
  }

  predicate Sets(flag: nat -> bool, cause: nat -> bool, n: nat) {
    flag(n + 1) <==> flag(n) || cause(n)
  }

  /** A flag that is set by a cause and never cleared. */
  lemma {:induction false} SetBySomeCause(flag: nat -> bool, cause: nat -> bool, n: nat)
    requires !flag(0) && forall k: nat :: Sets(flag, cause, k)
    ensures flag(n) <==> exists v: nat :: v < n && cause(v)
  {
    if n > 0 {
      SetBySomeCause(flag, cause, n - 1);
      assert Sets(flag, cause, n - 1);
    }
  }

  /** A run is aborted exactly when some visit of it met an exception that its node does not catch. */
  lemma AbortedExactlyByUncaught(o: Oracle, start: Rag, n: nat)
    ensures Run(o, start, n).node == Aborted <==> exists v: nat :: v < n && MeetsUncaughtAt(o, start, v)
  {
    var aborted := (k: nat) => Run(o, start, k).node == Aborted;
    var meets := (v: nat) => MeetsUncaughtAt(o, start, v);
    forall k: nat
      ensures Sets(aborted, meets, k)
    {
      AbortedByLastVisit(o, start, k);
    }
    SetBySomeCause(aborted, meets, n);
    assert forall v: nat :: meets(v) == MeetsUncaughtAt(o, start, v);
  }

  /** Whatever the model and the retriever do, and whatever an earlier turn left in the state, the subgraph is over
      within 23 node visits: in an error or with a verified answer, if and only if no visit met an uncaught exception.
      */
  lemma EndsWithin23Visits(o: Oracle, start: Rag, n: nat)
    requires n >= 23
    ensures var a := Run(o, start, n);
            Over(a) && (a.node == End && (a.state.error || Verified(a.state))
                        <==> forall v: nat :: v < n ==> !MeetsUncaughtAt(o, start, v))
  {
    RunKeepsTrack(o, start, n);
    AbortedExactlyByUncaught(o, start, n);
  }

  /** A run that counts its rewrites and generations as it goes. */
  datatype Progress = Progress(at: At, rewrites: nat, generations: nat)

  function Advance(o: Oracle, visit: nat, p: Progress): Progress {
    Progress(Visit(o, visit, p.at),
             p.rewrites + if p.at.node == Rewrite then 1 else 0,
             p.generations + if p.at.node == Generate then 1 else 0)
  }

  function Advancing(o: Oracle): (nat, Progress) -> Progress {
    (v: nat, p: Progress) => Advance(o, v, p)
  }

  function CountingRun(o: Oracle, start: Rag, n: nat): Progress {
    Iterate(Advancing(o), Progress(At(Initialize, start), 0, 0), n)
  }

  /** Rewrites and generations so far, against the attempts counted in the state. */
  ghost predicate Counted(a: At, rewrites: nat, generations: nat) {
    && (a.node == Initialize ==> rewrites == generations == 0)
    && (a.node != Initialize ==>
          rewrites <= a.state.ragAttempts + 1 && generations <= a.state.hallucinationAttempts + 1)
    && (a.node == Rewrite ==> rewrites <= a.state.ragAttempts)
    && (a.node in {Rewrite, RouteRetrieval, Search, Grade} ==> generations == 0)
    && (a.node == Generate ==> generations <= a.state.hallucinationAttempts)
  }

  lemma VisitKeepsCounts(o: Oracle, visit: nat, a: At, rewrites: nat, generations: nat)
    requires OnTrack(a) && Counted(a, rewrites, generations)
    ensures Counted(Visit(o, visit, a), rewrites + if a.node == Rewrite then 1 else 0,
                    generations + if a.node == Generate then 1 else 0)
  {
  }

  ghost predicate CountedOnTrack(p: Progress) {
    OnTrack(p.at) && Counted(p.at, p.rewrites, p.generations)
  }

  lemma AdvanceKeepsCounts(o: Oracle, visit: nat, p: Progress)
    requires CountedOnTrack(p)
    ensures CountedOnTrack(Advance(o, visit, p))
  {
    VisitKeepsTrack(o, visit, p.at);
    VisitKeepsCounts(o, visit, p.at, p.rewrites, p.generations);
  }

  lemma RunIsCounted(o: Oracle, start: Rag, n: nat)
    ensures CountedOnTrack(CountingRun(o, start, n))
  {
    var inv := (v: nat, p: Progress) => CountedOnTrack(p);
    forall v: nat, p | inv(v, p)
      ensures inv(v + 1, Advancing(o)(v, p))
    {
      AdvanceKeepsCounts(o, v, p);
    }
    IterateKeeps(Advancing(o), Progress(At(Initialize, start), 0, 0), inv, n);
  }

  lemma {:induction false} CountingIsRunning(o: Oracle, start: Rag, n: nat)
    ensures CountingRun(o, start, n).at == Run(o, start, n)
  {
    if n > 0 {
      CountingIsRunning(o, start, n - 1);
    }
  }

  /** However long a run is, its query is rewritten at most four times and an answer generated at most three times. */
  lemma AtMostFourRewritesThreeGenerations(o: Oracle, start: Rag, n: nat)
    ensures var p := CountingRun(o, start, n);
            p.at == Run(o, start, n) && p.rewrites <= 4 && p.generations <= 3
  {
    RunIsCounted(o, start, n);
    CountingIsRunning(o, start, n);
  }

  // ----- what the user is told -----

  /** What answers a policy question: this run's answer, the handover text, or, when the run has no answer, whatever
      the node falls through to (an earlier operation's response, tool results, a generic text). */
  datatype Shown = Answer(text: string) | HandOver | Fallback

  function PolicyReply(s: Rag): Shown {
    match s.answer
    case None => Fallback
    case Some(text) => if s.check == Some(Verdict(true)) && !s.error then Answer(text) else HandOver
  }

  /** After a finished run: an answer is shown if and only if it is verified, which is when the run did not end in an
      error, and it is that answer; else the handover text stands in for an answer that there was. */
  lemma ShownExactlyWhenVerified(o: Oracle, start: Rag, n: nat)
    requires Run(o, start, n).node == End
    ensures var s := Run(o, start, n).state;
            && (PolicyReply(s).Answer? <==> !s.error)
            && (PolicyReply(s).Answer? ==> Verified(s) && PolicyReply(s).text == s.judged.value.0)
            && (PolicyReply(s).HandOver? <==> s.error && s.answer.Some?)
  {
    RunKeepsTrack(o, start, n);
  }

  // ----- which runs end in an answer -----

  /** The best score reaches a mark exactly when some document's does. */
  lemma {:induction false} BestIsHighest(o: Oracle, visit: nat, query: string, docs: seq<string>, mark: int)
    requires docs != [] && forall i :: 0 <= i < |docs| ==> o.grade(visit, query, docs[i]).Some?
    ensures BestScore(o, visit, query, docs).Some?
    ensures BestScore(o, visit, query, docs).value >= mark
       <==> exists i :: 0 <= i < |docs| && o.grade(visit, query, docs[i]).value >= mark
  {
    var n := |docs| - 1;
    if n > 0 {
      BestIsHighest(o, visit, query, docs[..n], mark);
      assert forall i :: 0 <= i < n ==> docs[..n][i] == docs[i];
    }
  }

  /** What round `r` asks for: the rewritten query, or the message if that came out empty. */
  function Asked(o: Oracle, start: Rag, r: nat): string {
    if o.rewrite(4 * r + 1).Returned? && o.rewrite(4 * r + 1).value != "" then o.rewrite(4 * r + 1).value
    else start.message
  }

  /** Round `r` finds documents and grades all of them. */
  ghost predicate Finds(o: Oracle, start: Rag, r: nat, docs: seq<string>) {
    && start.tenantId != "" && o.rewrite(4 * r + 1).Returned?
    && o.search(4 * r + 3) == Some(docs) && docs != []
    && forall i :: 0 <= i < |docs| ==> o.grade(4 * r + 4, Asked(o, start, r), docs[i]).Some?
  }

  /** At least one of them is graded 7 or better. */
  ghost predicate Scores(o: Oracle, start: Rag, r: nat, docs: seq<string>)
    requires Finds(o, start, r, docs)
  {
    exists i :: 0 <= i < |docs| && o.grade(4 * r + 4, Asked(o, start, r), docs[i]).value >= 7
  }

  ghost predicate LowRound(o: Oracle, start: Rag, r: nat) {
    exists docs :: Finds(o, start, r, docs) && !Scores(o, start, r, docs)
  }

  /** The rounds before `r` were all low. */
  ghost predicate LowBefore(o: Oracle, start: Rag, r: nat) {
    forall k: nat :: k < r ==> LowRound(o, start, k)
  }

  /** A run as the states before each of its visits. */
  ghost predicate Follows(o: Oracle, start: Rag, t: nat -> At) {
    t(0) == At(Initialize, start) && forall n: nat :: VisitAt(o, t, n)
  }

  predicate VisitAt(o: Oracle, t: nat -> At, n: nat) {
    t(n + 1) == Visit(o, n, t(n))
  }

  function Trace(o: Oracle, start: Rag): nat -> At {
    (n: nat) => Run(o, start, n)
  }

  lemma RunFollows(o: Oracle, start: Rag)
    ensures Follows(o, start, Trace(o, start))
  {
    forall n: nat
      ensures VisitAt(o, Trace(o, start), n)
    {
      assert Run(o, start, n + 1) == Visiting(o)(n, Run(o, start, n));
    }
  }

  lemma NextVisit(o: Oracle, start: Rag, t: nat -> At, n: nat)
    requires Follows(o, start, t)
    ensures t(n + 1) == Visit(o, n, t(n))
  {
    assert VisitAt(o, t, n);
  }

  lemma TwoVisits(o: Oracle, start: Rag, t: nat -> At, n: nat)
    requires Follows(o, start, t)
    ensures t(n + 2) == Visit(o, n + 1, Visit(o, n, t(n)))
  {
    NextVisit(o, start, t, n);
    NextVisit(o, start, t, n + 1);
  }

  lemma ThreeVisits(o: Oracle, start: Rag, t: nat -> At, n: nat)
    requires Follows(o, start, t)
    ensures t(n + 3) == Visit(o, n + 2, Visit(o, n + 1, Visit(o, n, t(n))))
  {
    TwoVisits(o, start, t, n);
    NextVisit(o, start, t, n + 2);
  }

  /** Before the rewriting of round `r`. */
  ghost predicate RoundStarts(start: Rag, r: nat, a: At) {
    && a.node == Rewrite && a.state.tenantId == start.tenantId && a.state.message == start.message
    && a.state.ragAttempts == r && a.state.hallucinationAttempts == 0 && !a.state.error
  }

  /** Before the grading of round `r`. */
  ghost predicate RoundGrades(o: Oracle, start: Rag, r: nat, docs: seq<string>, a: At) {
    && a.node == Grade && a.state.tenantId == start.tenantId && a.state.message == start.message
    && a.state.ragAttempts == r && a.state.hallucinationAttempts == 0 && !a.state.error
    && a.state.docs == docs && Query(a.state) == Asked(o, start, r)
  }

  lemma FindingGoes(o: Oracle, start: Rag, r: nat, docs: seq<string>, a: At)
    requires RoundStarts(start, r, a) && Finds(o, start, r, docs)
    ensures RoundGrades(o, start, r, docs, Visit(o, 4 * r + 3, Visit(o, 4 * r + 2, Visit(o, 4 * r + 1, a))))
  {
  }

  lemma RoundGoes(o: Oracle, start: Rag, t: nat -> At, r: nat, docs: seq<string>)
    requires Follows(o, start, t)
    requires RoundStarts(start, r, t(4 * r + 1)) && Finds(o, start, r, docs)
    ensures RoundGrades(o, start, r, docs, t(4 * r + 4))
  {
    FindingGoes(o, start, r, docs, t(4 * r + 1));
    ThreeVisits(o, start, t, 4 * r + 1);
  }

  /** A low round is followed by another one, the fourth by none. */
  lemma LowGrades(o: Oracle, start: Rag, r: nat, docs: seq<string>, a: At)
    requires r <= 3 && Finds(o, start, r, docs) && !Scores(o, start, r, docs) && RoundGrades(o, start, r, docs, a)
    ensures var b := Visit(o, 4 * r + 4, a);
            if r < 3 then RoundStarts(start, r + 1, b)
            else b.node == End && b.state.error && b.state.answer == a.state.answer
  {
    BestIsHighest(o, 4 * r + 4, Asked(o, start, r), docs, 7);
  }

  lemma LowRoundGoes(o: Oracle, start: Rag, t: nat -> At, r: nat)
    requires Follows(o, start, t)
    requires r <= 3 && RoundStarts(start, r, t(4 * r + 1)) && LowRound(o, start, r)
    ensures var b := t(4 * r + 5);
            if r < 3 then RoundStarts(start, r + 1, b) else b.node == End && b.state.error
  {
    var docs: seq<string> :| Finds(o, start, r, docs) && !Scores(o, start, r, docs);
    RoundGoes(o, start, t, r, docs);
    LowGrades(o, start, r, docs, t(4 * r + 4));
    NextVisit(o, start, t, 4 * r + 4);
  }

  lemma {:induction false} RoundsGo(o: Oracle, start: Rag, t: nat -> At, r: nat)
    requires Follows(o, start, t)
    requires r <= 3 && LowBefore(o, start, r)
    ensures RoundStarts(start, r, t(4 * r + 1))
  {
    if r == 0 {
      NextVisit(o, start, t, 0);
    } else {
      RoundsGo(o, start, t, r - 1);
      assert LowRound(o, start, r - 1);
      LowRoundGoes(o, start, t, r - 1);
    }
  }

  /** Four low rounds, and the run ends in an error, after 17 visits. */
  lemma LowRoundsEndInError(o: Oracle, start: Rag, t: nat -> At)
    requires Follows(o, start, t)
    requires LowBefore(o, start, 4)
    ensures t(17).node == End && t(17).state.error
  {
    assert LowBefore(o, start, 3) && LowRound(o, start, 3);
    RoundsGo(o, start, t, 3);
    LowRoundGoes(o, start, t, 3);
  }

  lemma NothingFound(o: Oracle, v: nat, start: Rag, r: nat, a: At)
    requires RoundStarts(start, r, a) && o.rewrite(v).Returned?
    requires start.tenantId == "" || o.search(v + 2).None? || o.search(v + 2).value == []
    ensures var b := Visit(o, v + 2, Visit(o, v + 1, Visit(o, v, a))); b.node == Grade && b.state.docs == []
  {
  }

  lemma EmptyGrades(o: Oracle, v: nat, a: At)
    requires a.node == Grade && a.state.docs == []
    ensures Visit(o, v, a).node == End && Visit(o, v, a).state.error
  {
  }

  lemma NothingFoundIsError(o: Oracle, start: Rag, t: nat -> At, v: nat, r: nat)
    requires Follows(o, start, t)
    requires RoundStarts(start, r, t(v)) && o.rewrite(v).Returned?
    requires start.tenantId == "" || o.search(v + 2).None? || o.search(v + 2).value == []
    ensures t(v + 4).node == End && t(v + 4).state.error
  {
    NothingFound(o, v, start, r, t(v));
    ThreeVisits(o, start, t, v);
    EmptyGrades(o, v + 3, t(v + 3));
    NextVisit(o, start, t, v + 3);
  }

  /** A round that finds nothing, or without a tenant to find anything for, ends the run in an error. */
  lemma NothingFoundEndsInError(o: Oracle, start: Rag, t: nat -> At, r: nat)
    requires Follows(o, start, t)
    requires r <= 3 && LowBefore(o, start, r) && o.rewrite(4 * r + 1).Returned?
    requires start.tenantId == "" || o.search(4 * r + 3).None? || o.search(4 * r + 3).value == []
    ensures t(4 * r + 5).node == End && t(4 * r + 5).state.error
  {
    RoundsGo(o, start, t, r);
    NothingFoundIsError(o, start, t, 4 * r + 1, r);
  }

  /** A failed rewriting, a failed generation, an empty draft, and a check that fails or answers out of form: each ends
      the run in an error. */
  lemma FailedCallsEndInError(o: Oracle, v: nat, a: At)
    ensures a.node == Rewrite && o.rewrite(v).ModelError? ==>
              EndsInError(Visit(o, v + 3, Visit(o, v + 2, Visit(o, v + 1, Visit(o, v, a)))))
    ensures a.node == Generate && o.generate(v).ModelError? ==> EndsInError(Visit(o, v + 1, Visit(o, v, a)))
    ensures a.node == CheckAnswer
            && (a.state.answer.None? || a.state.answer.value == "" || o.check(v).ModelError?
                || (o.check(v).Returned? && o.check(v).value.IllFormed?)) && !MeetsUncaught(o, v, a) ==>
              EndsInError(Visit(o, v, a))
  {
  }

  predicate EndsInError(a: At) {
    a.node == End && a.state.error && !PolicyReply(a.state).Answer?
  }

  /** The visit of the g-th generation, when round `r` is the first that is not low. */
  function GenerationVisit(r: nat, g: nat): nat {
    4 * r + 5 + 2 * g
  }

  /** The g-th draft is there and is checked. */
  ghost predicate Drafts(o: Oracle, r: nat, g: nat, draft: string) {
    o.generate(GenerationVisit(r, g)) == Returned(draft) && draft != ""
  }

  ghost predicate Unfaithful(o: Oracle, r: nat, g: nat) {
    && (exists draft :: Drafts(o, r, g, draft))
    && o.check(GenerationVisit(r, g) + 1) == Returned(Judged(false))
  }

  ghost predicate UnfaithfulBefore(o: Oracle, r: nat, g: nat) {
    forall k: nat :: k < g ==> Unfaithful(o, r, k)
  }

  /** Before the g-th generation, with the documents of round `r`. */
  ghost predicate Drafting(docs: seq<string>, g: nat, a: At) {
    && a.node == Generate && a.state.docs == docs && a.state.hallucinationAttempts == g
  }

  lemma HighGrades(o: Oracle, start: Rag, r: nat, docs: seq<string>, a: At)
    requires Finds(o, start, r, docs) && Scores(o, start, r, docs) && RoundGrades(o, start, r, docs, a)
    ensures Drafting(docs, 0, Visit(o, 4 * r + 4, a))
  {
    BestIsHighest(o, 4 * r + 4, Asked(o, start, r), docs, 7);
  }

  lemma FirstGeneration(o: Oracle, start: Rag, t: nat -> At, r: nat, docs: seq<string>)
    requires Follows(o, start, t)
    requires r <= 3 && LowBefore(o, start, r) && Finds(o, start, r, docs) && Scores(o, start, r, docs)
    ensures Drafting(docs, 0, t(4 * r + 5))
  {
    RoundsGo(o, start, t, r);
    RoundGoes(o, start, t, r, docs);
    HighGrades(o, start, r, docs, t(4 * r + 4));
    NextVisit(o, start, t, 4 * r + 4);
  }

  /** Before the check of the g-th draft. */
  ghost predicate Checking(docs: seq<string>, g: nat, draft: string, a: At) {
    && a.node == CheckAnswer && a.state.docs == docs && a.state.hallucinationAttempts == g
    && a.state.answer == Some(draft) && draft != ""
  }

  lemma DraftGoes(o: Oracle, v: nat, docs: seq<string>, g: nat, draft: string, a: At)
    requires Drafting(docs, g, a) && o.generate(v) == Returned(draft) && draft != ""
    ensures Checking(docs, g, draft, Visit(o, v, a))
  {
  }

  lemma FaithfulGoes(o: Oracle, v: nat, docs: seq<string>, g: nat, draft: string, a: At)
    requires Checking(docs, g, draft, a) && o.check(v) == Returned(Judged(true))
    ensures var b := Visit(o, v, a);
            b.node == End && !b.state.error && b.state.answer == Some(draft) && b.state.docs == docs
            && PolicyReply(b.state) == Answer(draft)
  {
  }

  lemma UnfaithfulGoes(o: Oracle, v: nat, docs: seq<string>, g: nat, draft: string, a: At)
    requires Checking(docs, g, draft, a) && o.check(v) == Returned(Judged(false)) && g <= 2
    ensures var b := Visit(o, v, a);
            if g < 2 then Drafting(docs, g + 1, b)
            else b.node == End && b.state.error && PolicyReply(b.state) == HandOver
  {
  }

  lemma UnfaithfulDraftGoes(o: Oracle, start: Rag, t: nat -> At, r: nat, docs: seq<string>, g: nat)
    requires Follows(o, start, t)
    requires Drafting(docs, g, t(GenerationVisit(r, g))) && Unfaithful(o, r, g) && g <= 2
    ensures var b := t(GenerationVisit(r, g) + 2);
            if g < 2 then Drafting(docs, g + 1, b)
            else b.node == End && b.state.error && PolicyReply(b.state) == HandOver
  {
    var v := GenerationVisit(r, g);
    var draft :| Drafts(o, r, g, draft);
    DraftGoes(o, v, docs, g, draft, t(v));
    UnfaithfulGoes(o, v + 1, docs, g, draft, Visit(o, v, t(v)));
    TwoVisits(o, start, t, v);
  }

  lemma {:induction false} GenerationsGo(o: Oracle, start: Rag, t: nat -> At, r: nat, docs: seq<string>, g: nat)
    requires Follows(o, start, t)
    requires r <= 3 && LowBefore(o, start, r) && Finds(o, start, r, docs) && Scores(o, start, r, docs)
    requires g <= 2 && UnfaithfulBefore(o, r, g)
    ensures Drafting(docs, g, t(GenerationVisit(r, g)))
  {
    if g == 0 {
      FirstGeneration(o, start, t, r, docs);
    } else {
      GenerationsGo(o, start, t, r, docs, g - 1);
      assert Unfaithful(o, r, g - 1);
      UnfaithfulDraftGoes(o, start, t, r, docs, g - 1);
    }
  }

  lemma FaithfulDraftGoes(o: Oracle, start: Rag, t: nat -> At, v: nat, docs: seq<string>, g: nat, draft: string)
    requires Follows(o, start, t)
    requires Drafting(docs, g, t(v)) && o.generate(v) == Returned(draft) && draft != ""
    requires o.check(v + 1) == Returned(Judged(true))
    ensures var b := t(v + 2);
            b.node == End && !b.state.error && b.state.answer == Some(draft) && b.state.docs == docs
            && PolicyReply(b.state) == Answer(draft)
  {
    DraftGoes(o, v, docs, g, draft, t(v));
    FaithfulGoes(o, v + 1, docs, g, draft, Visit(o, v, t(v)));
    TwoVisits(o, start, t, v);
  }

  /** The first round with a document graded 7 or better, if it is among the first four, is answered from; and the first
      draft of it found faithful, if it is among the first three, is the answer. */
  lemma FirstFaithfulIsTheAnswer(o: Oracle, start: Rag, t: nat -> At, r: nat, docs: seq<string>, g: nat, draft: string)
    requires Follows(o, start, t)
    requires r <= 3 && LowBefore(o, start, r) && Finds(o, start, r, docs) && Scores(o, start, r, docs)
    requires g <= 2 && UnfaithfulBefore(o, r, g) && Drafts(o, r, g, draft)
    requires o.check(GenerationVisit(r, g) + 1) == Returned(Judged(true))
    ensures var a := t(4 * r + 2 * g + 7);
            a.node == End && !a.state.error && a.state.answer == Some(draft) && a.state.docs == docs
            && PolicyReply(a.state) == Answer(draft)
  {
    GenerationsGo(o, start, t, r, docs, g);
    FaithfulDraftGoes(o, start, t, GenerationVisit(r, g), docs, g, draft);
  }

  /** Three drafts found unfaithful, and the run ends in an error. */
  lemma UnfaithfulDraftsEndInError(o: Oracle, start: Rag, t: nat -> At, r: nat, docs: seq<string>)
    requires Follows(o, start, t)
    requires r <= 3 && LowBefore(o, start, r) && Finds(o, start, r, docs) && Scores(o, start, r, docs)
    requires UnfaithfulBefore(o, r, 3)
    ensures var a := t(4 * r + 11); a.node == End && a.state.error && PolicyReply(a.state) == HandOver
  {
    GenerationsGo(o, start, t, r, docs, 2);
    assert Unfaithful(o, r, 2);
    UnfaithfulDraftGoes(o, start, t, r, docs, 2);
  }
}
