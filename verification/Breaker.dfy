/** The circuit breaker around the model endpoint, and the calls it guards
    (src/llm/circuit_breaker.py, src/llm/openai_compatible.py `_chat`, `_chat_inner`). */
module Breaker {

  datatype CircuitState = Closed | Open | HalfOpen

  datatype Settings = Settings(threshold: int, cooldown: real)

  datatype Breaker = Breaker(state: CircuitState, failures: nat, openedAt: real, probing: bool)

  const FRESH := Breaker(Closed, 0, 0.0, false)

  /** How a guarded call ends: an answer, an endpoint failure, or something the breaker is not told about: content
      that is not text, or an exception that `_chat` does not catch. */
  datatype Ending = Answered | Unavailable | Unreported

  /** One call, asked for and ended at these times, and, if it is admitted, how it ends after how many posts. */
  datatype Call = Call(asked: real, ended: real, ending: Ending, posts: nat)

  predicate Enabled(s: Settings) {
    s.threshold > 0
  }

  predicate Admits(s: Settings, b: Breaker, now: real) {
    !Enabled(s)
    || match b.state
       case Closed => true
       case Open => now - b.openedAt >= s.cooldown
       case HalfOpen => !b.probing
  }

  function Asked(s: Settings, b: Breaker, now: real): Breaker {
    if !Enabled(s) || !Admits(s, b, now) || b.state == Closed then b
    else b.(state := HalfOpen, probing := true)
  }

  function Succeeded(s: Settings, b: Breaker): Breaker {
    if Enabled(s) then b.(state := Closed, failures := 0, probing := false) else b
  }

  function Failed(s: Settings, b: Breaker, now: real): Breaker {
    if !Enabled(s) then b
    else if b.state == HalfOpen then Breaker(Open, b.failures + 1, now, false)
    else if b.failures + 1 >= s.threshold then b.(state := Open, failures := b.failures + 1, openedAt := now)
    else b.(failures := b.failures + 1)
  }

  function Reported(s: Settings, b: Breaker, c: Call): Breaker {
    match c.ending
    case Answered => Succeeded(s, b)
    case Unavailable => Failed(s, b, c.ended)
    case Unreported => b
  }

  /** The breaker after one call. */
  function AfterCall(s: Settings, b: Breaker, c: Call): Breaker {
    if Admits(s, b, c.asked) then Reported(s, Asked(s, b, c.asked), c) else b
  }

  /** One guarded call in plain terms. A disabled breaker admits everything and remembers nothing; an enabled one
      admits unless it is open and cooling down or a probe is out. An answer closes it and clears its count; a failure
      counts, and opens it if it was the probe's or reaches the threshold. */
  predicate CallIsPlain(s: Settings, b: Breaker, asked: real, ended: real, admitted: bool, ending: Ending,
                        b': Breaker) {
    && (admitted <==> s.threshold <= 0 || b.state == Closed || (b.state == Open && asked - b.openedAt >= s.cooldown)
                      || (b.state == HalfOpen && !b.probing))
    && (!admitted || s.threshold <= 0 ==> b' == b)
    && (admitted && s.threshold > 0 ==>
          match ending
          case Answered => b'.state == Closed && b'.failures == 0 && !b'.probing
          case Unavailable =>
            && b'.failures == b.failures + 1
            && b'.state == (if b.state != Closed || b.failures + 1 >= s.threshold then Open else Closed)
            && (b'.state == Open ==> b'.openedAt == ended)
            && (b.state != Closed ==> !b'.probing)
          case Unreported =>
            b'.failures == b.failures && (if b.state == Closed then b' == b else b'.state == HalfOpen && b'.probing))
  }

  lemma CallsArePlain(s: Settings, b: Breaker, c: Call)
    ensures CallIsPlain(s, b, c.asked, c.ended, Admits(s, b, c.asked), c.ending, AfterCall(s, b, c))
  {
  }

  class CircuitBreaker {
    const s: Settings
    var state: CircuitState
    var consecutiveFailures: nat
    var openedAt: real
    var probeInFlight: bool

    ghost function Value(): Breaker
      reads this
    {
      Breaker(state, consecutiveFailures, openedAt, probeInFlight)
    }

    constructor (s: Settings)
      ensures this.s == s && Value() == FRESH
    {
      this.s := s;
      state, consecutiveFailures, openedAt, probeInFlight := Closed, 0, 0.0, false;
    }

    method Allow(now: real) returns (allowed: bool)
      modifies this
      ensures allowed == Admits(s, old(Value()), now)
      ensures Value() == Asked(s, old(Value()), now)
    {
      if !Enabled(s) {
        return true;
      }
      if state == Open {
        if now - openedAt >= s.cooldown {
          state, probeInFlight := HalfOpen, true;
          return true;
        }
        return false;
      }
      if state == HalfOpen {
        if probeInFlight {
          return false;
        }
        probeInFlight := true;
        return true;
      }
      allowed := true;
    }

    method OnSuccess()
      modifies this
      ensures Value() == Succeeded(s, old(Value()))
    {
      if Enabled(s) {
        consecutiveFailures, state, probeInFlight := 0, Closed, false;
      }
    }

    method OnFailure(now: real)
      modifies this
      ensures Value() == Failed(s, old(Value()), now)
    {
      if !Enabled(s) {
        return;
      }
      consecutiveFailures := consecutiveFailures + 1;
      if state == HalfOpen {
        state, openedAt, probeInFlight := Open, now, false;
        return;
      }
      if consecutiveFailures >= s.threshold {
        state, openedAt := Open, now;
      }
    }
  }

  // ----- one guarded call -----

  datatype Json =
    | Null
    | Bool(value: bool)
    | Number(number: real)
    | Text(text: string)
    | List(items: seq<Json>)
    | Object(fields: map<string, Json>)

  /** A reply's body: `json()` raises a ValueError, or something else (nesting beyond the recursion limit), or reads
      it. */
  datatype Body = NotJson | Unreadable | Parsed(json: Json)

  /** What one HTTP post meets: a timeout or transport error, any other exception, or a response. */
  datatype Reply = Lost | Raised | Response(status: int, body: Body)

  /** Where subscripting has got to: a value, a KeyError or IndexError (caught), or a TypeError (not caught). */
  datatype Access = Found(json: Json) | Caught | Escaped

  /** `[key]` for a string key: only an object has string keys, and subscripting anything else by one is a TypeError. */
  function AtKey(a: Access, key: string): Access {
    if !a.Found? then a
    else if !a.json.Object? then Escaped
    else if key in a.json.fields then Found(a.json.fields[key])
    else Caught
  }

  /** `[0]`: of a list its first item, of a string its first character; an object has no key that is a number. */
  function AtZero(a: Access): Access {
    if !a.Found? then a
    else
      match a.json
      case List(items) => if items == [] then Caught else Found(items[0])
      case Text(text) => if text == "" then Caught else Found(Text(text[..1]))
      case Object(_) => Caught
      case _ => Escaped
  }

  /** `body["choices"][0]["message"]["content"]`. */
  function ContentOf(body: Json): Access {
    AtKey(AtKey(AtZero(AtKey(Found(body), "choices")), "message"), "content")
  }

  predicate Retryable(status: int) {
    status in {408, 409, 429, 500, 502, 503, 504}
  }

  /** A reply that ends the call at this attempt. */
  predicate Ends(r: Reply, attempt: nat, maxRetries: nat) {
    r.Raised? || (r.Response? && !(Retryable(r.status) && attempt < maxRetries))
  }

  function EndingOf(r: Reply): Ending {
    match r
    case Lost => Unavailable
    case Raised => Unreported
    case Response(status, body) =>
      if status >= 400 || body.NotJson? then Unavailable
      else if body.Unreadable? then Unreported
      else
        match ContentOf(body.json)
        case Found(content) => if content.Text? then Answered else Unreported
        case Caught => Unavailable
        case Escaped => Unreported
  }

  predicate Has(j: Json, key: string) {
    j.Object? && key in j.fields
  }

  /** The shape the endpoint is expected to answer with, down to the first message. */
  predicate HasMessage(j: Json) {
    && Has(j, "choices") && j.fields["choices"].List? && j.fields["choices"].items != []
    && Has(j.fields["choices"].items[0], "message")
  }

  /** A reply below 400 is an answer exactly when it has a first message with text for content, and an endpoint failure
      the breaker hears of exactly when it is no JSON, or a key or the first choice is missing from what can have one;
      every other shape is reported to nobody. */
  lemma RepliesByShape(status: int, j: Json)
    requires status < 400
    ensures EndingOf(Response(status, NotJson)) == Unavailable && EndingOf(Response(status, Unreadable)) == Unreported
    ensures var e := EndingOf(Response(status, Parsed(j)));
            && (e == Answered
                <==> HasMessage(j)
                     && var m := j.fields["choices"].items[0].fields["message"];
                        Has(m, "content") && m.fields["content"].Text?)
            && (e == Unavailable
                <==> j.Object?
                     && ("choices" in j.fields ==>
                           var c := j.fields["choices"];
                           c.Object? || c == Text("") || c == List([])
                           || (c.List? && c.items[0].Object?
                               && ("message" in c.items[0].fields ==>
                                     var m := c.items[0].fields["message"];
                                     m.Object? && "content" !in m.fields))))
  {
  }

  /** The call's posts: the last of them is the first that ends the call and gives its ending, or the retries are used
      up. */
  ghost predicate EndsAfter(replies: nat -> Reply, maxRetries: nat, posts: nat, ending: Ending) {
    && 1 <= posts <= maxRetries + 1
    && (forall i :: 0 <= i < posts - 1 ==> !Ends(replies(i), i, maxRetries))
    && if Ends(replies(posts - 1), posts - 1, maxRetries) then ending == EndingOf(replies(posts - 1))
       else posts == maxRetries + 1 && ending == Unavailable
  }

  /** A reply that is posted again for: a lost one, or one of the retryable statuses. */
  predicate PostedAgain(r: Reply) {
    r.Lost? || (r.Response? && r.status in {408, 409, 429, 500, 502, 503, 504})
  }

  /** The call in plain terms: it posts again while it is to and may, and what ends it is a failure if the reply was
      lost or its status is an error. */
  ghost predicate PostsPlainly(replies: nat -> Reply, maxRetries: nat, posts: nat, ending: Ending) {
    && 1 <= posts <= maxRetries + 1
    && (forall i :: 0 <= i < posts - 1 ==> PostedAgain(replies(i)))
    && (posts <= maxRetries ==> !PostedAgain(replies(posts - 1)))
    && match replies(posts - 1)
       case Lost => ending == Unavailable
       case Raised => ending == Unreported
       case Response(status, body) => if status >= 400 then ending == Unavailable
                                      else ending == EndingOf(Response(200, body))
  }

  class GuardedLLM {
    const breaker: CircuitBreaker
    const maxRetries: nat

    constructor (breaker: CircuitBreaker, maxRetries: nat)
      ensures this.breaker == breaker && this.maxRetries == maxRetries
    {
      this.breaker, this.maxRetries := breaker, maxRetries;
    }

    /** Posts until a reply ends the call, at most `maxRetries` times more. */
    method ChatInner(replies: nat -> Reply) returns (ending: Ending, posts: nat)
      ensures EndsAfter(replies, maxRetries, posts, ending) && PostsPlainly(replies, maxRetries, posts, ending)
    {
      posts := 0;
      while posts < maxRetries + 1
        invariant posts <= maxRetries + 1
        invariant forall i :: 0 <= i < posts ==> !Ends(replies(i), i, maxRetries)
      {
        var r, attempt := replies(posts), posts;
        posts := posts + 1;
        if r.Raised? {
          return Unreported, posts;
        }
        if r.Response? && !(Retryable(r.status) && attempt < maxRetries) {
          if r.status >= 400 || r.body.NotJson? {
            return Unavailable, posts;
          }
          if r.body.Unreadable? {
            return Unreported, posts;
          }
          var content := ContentOf(r.body.json);
          if content.Caught? {
            return Unavailable, posts;
          }
          ending := if content.Found? && content.json.Text? then Answered else Unreported;
          return;
        }
      }
      ending := Unavailable;
    }

    /** A call refused by the open breaker posts nothing; an admitted one posts, and reports an answer or a failure. */
    method Chat(asked: real, ended: real, replies: nat -> Reply) returns (admitted: bool, ending: Ending, posts: nat)
      modifies breaker
      ensures admitted == Admits(breaker.s, old(breaker.Value()), asked)
      ensures breaker.Value() == AfterCall(breaker.s, old(breaker.Value()), Call(asked, ended, ending, posts))
      ensures if admitted then
                EndsAfter(replies, maxRetries, posts, ending) && PostsPlainly(replies, maxRetries, posts, ending)
              else posts == 0 && ending == Unavailable
      ensures CallIsPlain(breaker.s, old(breaker.Value()), asked, ended, admitted, ending, breaker.Value())
    {
      admitted := breaker.Allow(asked);
      if !admitted {
        return false, Unavailable, 0;
      }
      CallsArePlain(breaker.s, old(breaker.Value()), Call(asked, ended, Unreported, 0));
      ending, posts := ChatInner(replies);
      CallsArePlain(breaker.s, old(breaker.Value()), Call(asked, ended, ending, posts));
      if ending == Unavailable {
        breaker.OnFailure(ended);
      } else if ending == Answered {
        breaker.OnSuccess();
      }
    }
  }

  // ----- runs -----

  function AfterCalls(s: Settings, b: Breaker, cs: seq<Call>): Breaker {
    if cs == [] then b else AfterCall(s, AfterCalls(s, b, cs[..|cs| - 1]), cs[|cs| - 1])
  }

  /** When the admitted calls of a run were asked for. */
  function Admissions(s: Settings, b: Breaker, cs: seq<Call>): seq<real> {
    if cs == [] then []
    else
      var n := |cs| - 1;
      Admissions(s, b, cs[..n])
      + if Admits(s, AfterCalls(s, b, cs[..n]), cs[n].asked) then [cs[n].asked] else []
  }

  /** One call after another on a clock that does not run backwards. */
  ghost predicate Sequential(cs: seq<Call>) {
    && (forall i :: 0 <= i < |cs| ==> cs[i].asked <= cs[i].ended)
    && (forall i, j :: 0 <= i < j < |cs| ==> cs[i].ended <= cs[j].asked)
  }

  /** The probe flag is set exactly in HALF_OPEN, whatever the calls do. */
  lemma {:induction false} ProbeExactlyHalfOpen(s: Settings, cs: seq<Call>)
    ensures var b := AfterCalls(s, FRESH, cs); b.probing <==> b.state == HalfOpen
  {
    if cs != [] {
      ProbeExactlyHalfOpen(s, cs[..|cs| - 1]);
    }
  }

  /** In a run of failures: how far it has got, and when the last admitted call was. */
  lemma {:induction false} FailingRun(s: Settings, cs: seq<Call>, now: real)
    requires Enabled(s) && Sequential(cs) && forall i :: 0 <= i < |cs| ==> cs[i].ending == Unavailable
    requires forall i :: 0 <= i < |cs| ==> cs[i].ended <= now
    ensures var b, ts := AfterCalls(s, FRESH, cs), Admissions(s, FRESH, cs);
            && b.failures == |ts| && b.state != HalfOpen && (b.state == Open <==> |ts| >= s.threshold)
            && (|ts| > 0 ==> ts[|ts| - 1] <= now)
            && (b.state == Open ==> ts[|ts| - 1] <= b.openedAt)
            && forall i :: s.threshold <= i < |ts| ==> ts[i] - ts[i - 1] >= s.cooldown
  {
    if cs != [] {
      var n := |cs| - 1;
      FailingRun(s, cs[..n], cs[n].asked);
    }
  }

  lemma {:induction false} GapsAddUp(ts: seq<real>, lo: nat, hi: nat, gap: real)
    requires lo <= hi < |ts| && forall i :: lo < i <= hi ==> ts[i] - ts[i - 1] >= gap
    ensures ts[hi] - ts[lo] >= (hi - lo) as real * gap
    decreases hi
  {
    if lo < hi {
      GapsAddUp(ts, lo, hi - 1, gap);
      assert (hi - lo) as real * gap == (hi - 1 - lo) as real * gap + gap;
    }
  }

  lemma CountByGap(n: nat, gap: real, length: real)
    requires gap > 0.0 && n as real * gap <= length
    ensures n <= (length / gap).Floor
  {
    assert n as real <= length / gap by {
      assert length / gap * gap == length;
    }
  }

  /** While every admitted call fails, any closed interval of length T admits at most threshold + floor(T / cooldown)
      calls: that many admissions from the i-th to the j-th fit into it. */
  lemma AdmissionsBounded(s: Settings, cs: seq<Call>, i: nat, j: nat, length: real)
    requires Enabled(s) && s.cooldown > 0.0 && Sequential(cs)
    requires forall k :: 0 <= k < |cs| ==> cs[k].ending == Unavailable
    requires i <= j < |Admissions(s, FRESH, cs)|
    requires Admissions(s, FRESH, cs)[j] - Admissions(s, FRESH, cs)[i] <= length
    ensures j - i + 1 <= s.threshold + (length / s.cooldown).Floor
  {
    var ts := Admissions(s, FRESH, cs);
    if cs != [] {
      FailingRun(s, cs, cs[|cs| - 1].ended);
    }
    AdmissionsSorted(s, cs, if cs == [] then 0.0 else cs[|cs| - 1].asked);
    var lo := if i < s.threshold - 1 then s.threshold - 1 else i;
    if lo <= j {
      assert ts[i] <= ts[lo];
      GapCount(ts, lo, j, s.cooldown, length);
    } else {
      assert ts[i] <= ts[j];
      CountByGap(0, s.cooldown, length);
    }
  }

  lemma GapCount(ts: seq<real>, lo: nat, hi: nat, gap: real, length: real)
    requires gap > 0.0 && lo <= hi < |ts| && forall i :: lo < i <= hi ==> ts[i] - ts[i - 1] >= gap
    requires ts[hi] - ts[lo] <= length
    ensures hi - lo <= (length / gap).Floor
  {
    GapsAddUp(ts, lo, hi, gap);
    CountByGap(hi - lo, gap, length);
  }

  ghost predicate OrderedUpTo(ts: seq<real>, last: real) {
    (forall i, j :: 0 <= i <= j < |ts| ==> ts[i] <= ts[j]) && (forall i :: 0 <= i < |ts| ==> ts[i] <= last)
  }

  lemma {:induction false} AdmissionsSorted(s: Settings, cs: seq<Call>, last: real)
    requires Sequential(cs) && (cs != [] ==> cs[|cs| - 1].asked <= last)
    ensures OrderedUpTo(Admissions(s, FRESH, cs), last)
  {
    if cs != [] {
      var n := |cs| - 1;
      assert n > 0 ==> cs[..n][n - 1].asked <= cs[n - 1].ended <= cs[n].asked;
      AdmissionsSorted(s, cs[..n], cs[n].asked);
    }
  }

  function CountIn(ts: seq<real>, start: real, end: real): nat {
    if ts == [] then 0
    else
      CountIn(ts[..|ts| - 1], start, end) + if start <= ts[|ts| - 1] <= end then 1 else 0
  }

  /** What is counted lies between two positions of the sequence that are in the interval. */
  lemma {:induction false} CountSpans(ts: seq<real>, start: real, end: real) returns (i: nat, j: nat)
    requires CountIn(ts, start, end) > 0
    ensures i <= j < |ts| && start <= ts[i] && ts[j] <= end
    ensures CountIn(ts, start, end) <= j - i + 1
  {
    var n := |ts| - 1;
    if CountIn(ts[..n], start, end) == 0 {
      i, j := n, n;
    } else {
      i, j := CountSpans(ts[..n], start, end);
      if start <= ts[n] <= end {
        j := n;
      }
    }
  }

  /** The posts made by the calls of a run that were admitted at a time within the interval. */
  function PostsIn(s: Settings, b: Breaker, cs: seq<Call>, start: real, end: real): nat {
    if cs == [] then 0
    else
      var n := |cs| - 1;
      PostsIn(s, b, cs[..n], start, end)
      + if Admits(s, AfterCalls(s, b, cs[..n]), cs[n].asked) && start <= cs[n].asked <= end then cs[n].posts else 0
  }

  lemma {:induction false} PostsPerAdmission(s: Settings, b: Breaker, cs: seq<Call>, start: real, end: real, most: nat)
    requires forall i :: 0 <= i < |cs| ==> cs[i].posts <= most
    ensures PostsIn(s, b, cs, start, end) <= most * CountIn(Admissions(s, b, cs), start, end)
  {
    if cs != [] {
      var n := |cs| - 1;
      var before := Admissions(s, b, cs[..n]);
      PostsPerAdmission(s, b, cs[..n], start, end, most);
      if Admits(s, AfterCalls(s, b, cs[..n]), cs[n].asked) {
        CountOneMore(before, cs[n].asked, start, end);
        OnceMore(most, CountIn(before, start, end));
      } else {
        assert before + [] == before;
      }
    }
  }

  lemma CountOneMore(ts: seq<real>, t: real, start: real, end: real)
    ensures CountIn(ts + [t], start, end) == CountIn(ts, start, end) + if start <= t <= end then 1 else 0
  {
    assert (ts + [t])[..|ts|] == ts;
  }

  lemma OnceMore(factor: nat, n: nat)
    ensures factor * (n + 1) == factor * n + factor
  {
  }

  /** While every admitted call fails, the endpoint is posted to at most (maxRetries + 1) * (threshold +
      floor(T / cooldown)) times on behalf of the calls asked for within any closed interval of length T. */
  lemma PostsBounded(s: Settings, cs: seq<Call>, maxRetries: nat, start: real, length: real)
    requires Enabled(s) && s.cooldown > 0.0 && length >= 0.0 && Sequential(cs)
    requires forall k :: 0 <= k < |cs| ==> cs[k].ending == Unavailable && cs[k].posts <= maxRetries + 1
    ensures PostsIn(s, FRESH, cs, start, start + length)
            <= (maxRetries + 1) * (s.threshold + (length / s.cooldown).Floor)
  {
    var count := CountIn(Admissions(s, FRESH, cs), start, start + length);
    var most := s.threshold + (length / s.cooldown).Floor;
    PostsPerAdmission(s, FRESH, cs, start, start + length, maxRetries + 1);
    if count > 0 {
      var i, j := CountSpans(Admissions(s, FRESH, cs), start, start + length);
      AdmissionsBounded(s, cs, i, j, length);
    } else {
      CountByGap(0, s.cooldown, length);
    }
    MoreTimes(maxRetries + 1, count, most);
  }

  lemma MoreTimes(factor: nat, less: int, more: int)
    requires less <= more
    ensures factor * less <= factor * more
  {
  }

  // ----- what an answer does -----

  /** The k-th call of a run from the beginning is admitted. */
  predicate Admitted(s: Settings, cs: seq<Call>, k: nat)
    requires k < |cs|
  {
    Admits(s, AfterCalls(s, FRESH, cs[..k]), cs[k].asked)
  }

  /** No admitted call from `start` on is answered; the one before, if there is one, was. */
  ghost predicate SinceAnswer(s: Settings, cs: seq<Call>, start: nat) {
    && start <= |cs|
    && (start == 0 || (Admitted(s, cs, start - 1) && cs[start - 1].ending == Answered))
    && forall k :: start <= k < |cs| && Admitted(s, cs, k) ==> cs[k].ending != Answered
  }

  /** The k-th call was admitted and reported as failed. */
  predicate FailsAt(s: Settings, cs: seq<Call>, k: int) {
    0 <= k < |cs| && Admitted(s, cs, k) && cs[k].ending == Unavailable
  }

  ghost function Among(lo: nat, hi: nat, p: int -> bool): set<int> {
    set k | lo <= k < hi && p(k)
  }

  /** The calls from `start` on that were. */
  ghost function FailedSince(s: Settings, cs: seq<Call>, start: nat): set<int> {
    Among(start, |cs|, k => FailsAt(s, cs, k))
  }

  lemma PrefixAdmits(s: Settings, cs: seq<Call>, n: nat)
    requires n <= |cs|
    ensures forall k :: 0 <= k < n ==> Admitted(s, cs[..n], k) == Admitted(s, cs, k)
  {
    assert forall k :: 0 <= k < n ==> cs[..n][..k] == cs[..k];
  }

  lemma AmongGrows(lo: nat, hi: nat, p: int -> bool, q: int -> bool)
    requires lo <= hi && forall k :: lo <= k < hi ==> p(k) == q(k)
    ensures |Among(lo, hi + 1, q)| == |Among(lo, hi, p)| + if q(hi) then 1 else 0
  {
    if q(hi) {
      assert Among(lo, hi + 1, q) == Among(lo, hi, p) + {hi};
    } else {
      assert Among(lo, hi + 1, q) == Among(lo, hi, p);
    }
  }

  lemma FailedSinceGrows(s: Settings, cs: seq<Call>, start: nat)
    requires start < |cs|
    ensures var n := |cs| - 1;
            |FailedSince(s, cs, start)| == |FailedSince(s, cs[..n], start)| + if FailsAt(s, cs, n) then 1 else 0
  {
    var n := |cs| - 1;
    PrefixFails(s, cs, n);
    AmongGrows(start, n, k => FailsAt(s, cs[..n], k), k => FailsAt(s, cs, k));
  }

  lemma PrefixFails(s: Settings, cs: seq<Call>, n: nat)
    requires n <= |cs|
    ensures forall k :: 0 <= k < n ==> FailsAt(s, cs[..n], k) == FailsAt(s, cs, k)
  {
    PrefixAdmits(s, cs, n);
  }

  /** Whatever the calls do: the breaker's count is the number of failures reported since the last answer, and it is
      closed exactly while that is below the threshold. */
  lemma {:induction false} CountsSinceAnswer(s: Settings, cs: seq<Call>, start: nat)
    requires s.threshold > 0 && SinceAnswer(s, cs, start)
    ensures var b := AfterCalls(s, FRESH, cs);
            && b.failures == |FailedSince(s, cs, start)|
            && (b.state == Closed <==> |FailedSince(s, cs, start)| < s.threshold)
            && (b.probing <==> b.state == HalfOpen)
    decreases |cs|
  {
    if start == |cs| {
      assert FailedSince(s, cs, start) == {};
      if start > 0 {
        ProbeExactlyHalfOpen(s, cs);
        CallsArePlain(s, AfterCalls(s, FRESH, cs[..start - 1]), cs[start - 1]);
      }
    } else {
      var n := |cs| - 1;
      PrefixAdmits(s, cs, n);
      CountsSinceAnswer(s, cs[..n], start);
      FailedSinceGrows(s, cs, start);
      CallsArePlain(s, AfterCalls(s, FRESH, cs[..n]), cs[n]);
    }
  }

  /** The last admitted call of a run, at which the breaker came to be open. */
  ghost predicate OpenedBy(s: Settings, cs: seq<Call>, last: nat) {
    && last < |cs| && Admitted(s, cs, last) && cs[last].ending == Unavailable
    && forall k :: last < k < |cs| ==> !Admitted(s, cs, k)
  }

  /** An open breaker was opened by the last admitted call, a failure, at the moment that ended. */
  lemma {:induction false} OpenSinceFailure(s: Settings, cs: seq<Call>) returns (last: nat)
    requires s.threshold > 0 && AfterCalls(s, FRESH, cs).state == Open
    ensures OpenedBy(s, cs, last) && AfterCalls(s, FRESH, cs).openedAt == cs[last].ended
  {
    var n := |cs| - 1;
    PrefixAdmits(s, cs, n);
    CallsArePlain(s, AfterCalls(s, FRESH, cs[..n]), cs[n]);
    if Admitted(s, cs, n) {
      last := n;
    } else {
      last := OpenSinceFailure(s, cs[..n]);
    }
  }

  /** When the next call of a run is admitted: always while fewer than `threshold` failures have been reported since the
      last answer; from then on only as a probe, a cooldown after the last failure ended, and never again once a
      probe has not been reported. */
  lemma AdmittedExactly(s: Settings, cs: seq<Call>, start: nat, c: Call)
    requires s.threshold > 0 && SinceAnswer(s, cs, start)
    ensures Admitted(s, cs + [c], |cs|)
       <==> || |FailedSince(s, cs, start)| < s.threshold
            || exists last: nat :: OpenedBy(s, cs, last) && c.asked - cs[last].ended >= s.cooldown
  {
    var b := AfterCalls(s, FRESH, cs);
    assert (cs + [c])[..|cs|] == cs;
    CountsSinceAnswer(s, cs, start);
    CallsArePlain(s, b, c);
    if b.state == Open {
      var last := OpenSinceFailure(s, cs);
      assert forall k: nat :: OpenedBy(s, cs, k) ==> k == last;
    } else {
      forall last: nat | OpenedBy(s, cs, last)
        ensures b.state != HalfOpen
      {
        StaysOpen(s, cs, last);
      }
    }
  }

  lemma {:induction false} StaysOpen(s: Settings, cs: seq<Call>, last: nat)
    requires s.threshold > 0 && OpenedBy(s, cs, last)
    ensures AfterCalls(s, FRESH, cs).state != HalfOpen
    decreases |cs|
  {
    var n := |cs| - 1;
    PrefixAdmits(s, cs, n);
    CallsArePlain(s, AfterCalls(s, FRESH, cs[..n]), cs[n]);
    if last < n {
      assert !Admitted(s, cs, n);
      StaysOpen(s, cs[..n], last);
    }
  }

  /** After an answer every call is admitted until `threshold` further failures have been reported. */
  lemma AnswerAdmits(s: Settings, cs: seq<Call>, a: nat, k: nat)
    requires s.threshold > 0 && a <= k < |cs| && (a == 0 || (Admitted(s, cs, a - 1) && cs[a - 1].ending == Answered))
    requires |FailedSince(s, cs[..k], a)| < s.threshold
    ensures Admitted(s, cs, k)
  {
    PrefixAdmits(s, cs, k);
    var start := LastAnswer(s, cs[..k], a);
    var few, more := FailedSince(s, cs[..k], start), FailedSince(s, cs[..k], a);
    assert few <= more && more == few + (more - few);
    CountsSinceAnswer(s, cs[..k], start);
    CallsArePlain(s, AfterCalls(s, FRESH, cs[..k]), cs[k]);
  }

  lemma {:induction false} LastAnswer(s: Settings, cs: seq<Call>, a: nat) returns (start: nat)
    requires a <= |cs| && (a == 0 || (Admitted(s, cs, a - 1) && cs[a - 1].ending == Answered))
    ensures a <= start && SinceAnswer(s, cs, start)
    decreases |cs| - a
  {
    start := a;
    if k :| a <= k < |cs| && Admitted(s, cs, k) && cs[k].ending == Answered {
      start := LastAnswer(s, cs, k + 1);
    }
  }

  // ----- the breaker that never opens again -----

  /** A probe nobody reports on. */
  predicate Wedged(s: Settings, b: Breaker) {
    Enabled(s) && b.state == HalfOpen && b.probing
  }

  /** Once wedged, always wedged: no call is admitted again, whatever the clock says. */
  lemma {:induction false} WedgedForever(s: Settings, b: Breaker, cs: seq<Call>)
    requires Wedged(s, b)
    ensures AfterCalls(s, b, cs) == b && Admissions(s, b, cs) == []
  {
    if cs != [] {
      WedgedForever(s, b, cs[..|cs| - 1]);
    }
  }

  /** The call is the probe of an open breaker and its ending is reported to nobody. */
  predicate UnreportedProbe(s: Settings, b: Breaker, c: Call) {
    Enabled(s) && b.state == Open && Admits(s, b, c.asked) && c.ending == Unreported
  }

  lemma WedgedByOneCall(s: Settings, b: Breaker, c: Call)
    requires b.probing <==> b.state == HalfOpen
    ensures Wedged(s, AfterCall(s, b, c)) <==> Wedged(s, b) || UnreportedProbe(s, b, c)
  {
  }

  /** The i-th call of the run is a probe reported to nobody. */
  predicate UnreportedAt(s: Settings, cs: seq<Call>, i: nat)
    requires i < |cs|
  {
    UnreportedProbe(s, AfterCalls(s, FRESH, cs[..i]), cs[i])
  }

  /** A run of calls wedges the breaker exactly when some probe of it is reported to nobody. */
  lemma {:induction false} WedgedExactlyByUnreportedProbe(s: Settings, cs: seq<Call>)
    ensures Wedged(s, AfterCalls(s, FRESH, cs)) <==> exists i :: 0 <= i < |cs| && UnreportedAt(s, cs, i)
  {
    if cs != [] {
      var n := |cs| - 1;
      WedgedExactlyByUnreportedProbe(s, cs[..n]);
      ProbeExactlyHalfOpen(s, cs[..n]);
      WedgedByOneCall(s, AfterCalls(s, FRESH, cs[..n]), cs[n]);
      forall i | 0 <= i < n
        ensures UnreportedAt(s, cs[..n], i) == UnreportedAt(s, cs, i)
      {
        assert cs[..n][..i] == cs[..i];
      }
      assert UnreportedAt(s, cs, n) == UnreportedProbe(s, AfterCalls(s, FRESH, cs[..n]), cs[n]);
    }
  }

  /** A probe answered by a JSON list, with status 200: subscripting it by "choices" is a TypeError, and no call is
      admitted again. */
  lemma ListReplyWedges(s: Settings, b: Breaker, asked: real, ended: real, posts: nat, later: seq<Call>)
    requires Enabled(s) && b.state == Open && Admits(s, b, asked)
    ensures var probe := Call(asked, ended, EndingOf(Response(200, Parsed(List([])))), posts);
            Admissions(s, AfterCall(s, b, probe), later) == []
  {
    var probe := Call(asked, ended, EndingOf(Response(200, Parsed(List([])))), posts);
    WedgedForever(s, AfterCall(s, b, probe), later);
  }
}
