/** Resuming an event stream: the server's numbered log, and the client channel that removes duplicates within a
    window of ids (src/infrastructure/store.py `append_event`/`events_after`, src/service/chat.py `_replay`,
    frontend/lib/sse.ts `SseChannel`). */
module SseChannel {
  import opened Wrappers
  import opened IdWindow

  datatype EventKind = EventAccepted | EventToken | EventNode | EventApprovalRequired | EventDone | EventError

  /** A frame; `streamId` is the `stream_id` entry of its data. */
  datatype Frame = Frame(id: int, event: EventKind, streamId: Option<string>)

  // ----- the server's log -----

  /** Events carry their position in the log, from 1. */
  ghost predicate Numbered(log: seq<Frame>) {
    forall i :: 0 <= i < |log| ==> log[i].id == i + 1
  }

  /** The events after a cursor. */
  function EventsAfter(log: seq<Frame>, cursor: int): seq<Frame> {
    if log == [] then []
    else
      var rest := EventsAfter(log[..|log| - 1], cursor);
      if log[|log| - 1].id > cursor then rest + [log[|log| - 1]] else rest
  }

  class StreamLog {
    var events: seq<Frame>
    var lastSeq: nat

    ghost predicate Valid()
      reads this
    {
      Numbered(events) && lastSeq == |events|
    }

    constructor ()
      ensures Valid() && events == []
    {
      events, lastSeq := [], 0;
    }

    method AppendEvent(event: EventKind, streamId: Option<string>) returns (seqNo: nat)
      requires Valid()
      modifies this
      ensures Valid() && seqNo == |old(events)| + 1 && events == old(events) + [Frame(seqNo, event, streamId)]
    {
      lastSeq := lastSeq + 1;
      seqNo := lastSeq;
      events := events + [Frame(seqNo, event, streamId)];
    }

    method ReplayAfter(cursor: int) returns (frames: seq<Frame>)
      requires Valid()
      ensures frames == EventsAfter(events, cursor)
    {
      frames := [];
      for i := 0 to |events|
        invariant frames == EventsAfter(events[..i], cursor)
      {
        assert events[..i + 1][..i] == events[..i];
        if events[i].id > cursor {
          frames := frames + [events[i]];
        }
      }
      assert events[..|events|] == events;
    }
  }

  /** On a numbered log, the events after a cursor are the log without its first `cursor` entries. */
  lemma {:induction false} AfterIsSuffix(log: seq<Frame>, cursor: nat)
    requires Numbered(log)
    ensures EventsAfter(log, cursor) == if cursor <= |log| then log[cursor..] else []
  {
    if log != [] {
      var init := log[..|log| - 1];
      AfterIsSuffix(init, cursor);
      if cursor < |log| {
        assert log[cursor..] == init[cursor..] + [log[|log| - 1]];
      }
    }
  }

  // ----- the client's channel -----

  const MAX_DEDUP: nat := 512

  datatype Status = Idle | Connecting | Streaming | Done | Failed | Reconnecting

  datatype Channel = Channel(streamId: Option<string>, lastId: int, seen: set<int>, status: Status,
                             delivered: seq<Frame>)

  function Noted(c: Channel, f: Frame): Channel {
    c.(streamId := if c.streamId.None? && f.event == EventAccepted && f.streamId != Some("") then f.streamId
       else c.streamId,
       lastId := f.id,
       seen := Largest(c.seen + {f.id}, MAX_DEDUP),
       status := match f.event
                 case EventDone => Done
                 case EventError => Failed
                 case _ => c.status,
       delivered := c.delivered + [f])
  }

  /** A frame handled: an id already seen is dropped. */
  function Handled(c: Channel, fs: seq<Frame>): Channel {
    if fs == [] then c
    else
      var d := Handled(c, fs[..|fs| - 1]);
      var f := fs[|fs| - 1];
      if f.id in d.seen then d else Noted(d, f)
  }

  class SseChannel {
    var streamId: Option<string>
    var lastId: int
    var seen: set<int>
    var status: Status
    ghost var delivered: seq<Frame>

    ghost function State(): Channel
      reads this
    {
      Channel(streamId, lastId, seen, status, delivered)
    }

    constructor ()
      ensures State() == Channel(None, 0, {}, Idle, [])
    {
      streamId, lastId, seen, status, delivered := None, 0, {}, Idle, [];
    }

    /** Remembers an unseen id; past the limit the smallest ids are forgotten. */
    method Accept(f: Frame) returns (ok: bool)
      modifies this`seen, this`lastId
      ensures ok == (f.id !in old(seen))
      ensures !ok ==> seen == old(seen) && lastId == old(lastId)
      ensures ok ==> seen == Largest(old(seen) + {f.id}, 512) && lastId == f.id
    {
      if f.id in seen {
        return false;
      }
      seen := seen + {f.id};
      while |seen| > MAX_DEDUP
        invariant Largest(seen, MAX_DEDUP) == Largest(old(seen) + {f.id}, MAX_DEDUP)
        decreases |seen|
      {
        seen := seen - {Least(seen)};
      }
      lastId := f.id;
      ok := true;
    }

    method HandleFrames(fs: seq<Frame>)
      modifies this
      ensures State() == Handled(old(State()), fs)
    {
      for i := 0 to |fs|
        invariant State() == Handled(old(State()), fs[..i])
      {
        assert fs[..i + 1][..i] == fs[..i];
        var f := fs[i];
        var ok := Accept(f);
        if ok {
          if streamId.None? && f.event == EventAccepted {
            streamId := if f.streamId == Some("") then None else f.streamId;
          }
          delivered := delivered + [f];
          if f.event == EventDone || f.event == EventError {
            status := if f.event == EventDone then Done else Failed;
          }
        }
      }
      assert fs[..|fs|] == fs;
    }

    /** A new turn: everything remembered is dropped. */
    method Start(received: seq<Frame>)
      modifies this
      ensures State() == Handled(Channel(None, 0, {}, Connecting, []), received)
    {
      seen, lastId, streamId, status, delivered := {}, 0, None, Connecting, [];
      HandleFrames(received);
    }

    /** Reconnects from a cursor; `cut` is how many frames arrive before the connection is lost again. */
    method Resume(server: StreamLog, cursor: int, cut: nat)
      requires server.Valid()
      modifies this
      ensures State() == Resumed(old(State()), server.events, cursor, cut)
    {
      status := Connecting;
      var frames := server.ReplayAfter(cursor);
      HandleFrames(if cut < |frames| then frames[..cut] else frames);
    }
  }

  function Resumed(c: Channel, log: seq<Frame>, cursor: int, cut: nat): Channel {
    var frames := EventsAfter(log, cursor);
    Handled(c.(status := Connecting), if cut < |frames| then frames[..cut] else frames)
  }

  // ----- exactly once -----

  /** The client has been handed the first `lastId` events, each once and in order, and remembers the newest of them. */
  ghost predicate InStep(c: Channel, log: seq<Frame>) {
    0 <= c.lastId <= |log| && c.delivered == log[..c.lastId] && c.seen == Window(c.lastId, MAX_DEDUP)
  }

  /** A channel that has been handed nothing is in step with any log. */
  lemma StartsInStep(log: seq<Frame>, status: Status)
    ensures InStep(Channel(None, 0, {}, status, []), log)
  {
    WindowIs(0, MAX_DEDUP);
    assert log[..0] == [] && Window(0, MAX_DEDUP) == {};
  }

  /** One frame handled. */
  function HandledOne(c: Channel, f: Frame): Channel {
    if f.id in c.seen then c else Noted(c, f)
  }

  /** What an unseen frame changes: the last id, the window, the stream id if there was none and the stream was
      accepted, and the status if the stream is over. */
  lemma FrameIsPlain(c: Channel, f: Frame)
    ensures var d := Handled(c, [f]);
            if f.id in c.seen then d == c
            else
              && d.lastId == f.id && d.delivered == c.delivered + [f] && d.seen == Largest(c.seen + {f.id}, 512)
              && d.streamId == (if c.streamId == None && f.event == EventAccepted && f.streamId != Some("")
                                then f.streamId else c.streamId)
              && d.status == (if f.event == EventDone then Done else if f.event == EventError then Failed
                              else c.status)
  {
    assert [f][..0] == [] && Handled(c, []) == c;
  }

  lemma NextKeepsStep(c: Channel, log: seq<Frame>)
    requires Numbered(log) && InStep(c, log) && c.lastId < |log|
    ensures InStep(Noted(c, log[c.lastId]), log)
  {
    var k := c.lastId;
    NextWindow(k, MAX_DEDUP);
    assert log[..k] + [log[k]] == log[..k + 1];
  }

  lemma FrameKeepsStep(c: Channel, log: seq<Frame>, j: nat)
    requires Numbered(log) && InStep(c, log) && j < |log| && c.lastId - MAX_DEDUP <= j <= c.lastId
    ensures var d := HandledOne(c, log[j]);
            InStep(d, log) && d.lastId == if j < c.lastId then c.lastId else j + 1
  {
    WindowHas(c.lastId, MAX_DEDUP, j + 1);
    if j == c.lastId {
      NextKeepsStep(c, log);
    }
  }

  /** `n` elements taken one after another, from this position on. */
  function Walk<C, X>(step: (C, X) -> C, c: C, xs: seq<X>, from: nat, n: nat): C
    requires from + n <= |xs|
  {
    if n == 0 then c else step(Walk(step, c, xs, from, n - 1), xs[from + n - 1])
  }

  lemma {:induction false} WalkKeeps<C(!new), X>(step: (C, X) -> C, c: C, xs: seq<X>, from: nat, n: nat,
                                                 inv: (C, nat) -> bool)
    requires from + n <= |xs| && inv(c, 0)
    requires forall d, k: nat :: k < n && inv(d, k) ==> inv(step(d, xs[from + k]), k + 1)
    ensures inv(Walk(step, c, xs, from, n), n)
  {
    if n > 0 {
      WalkKeeps(step, c, xs, from, n - 1, inv);
    }
  }

  function Handling(): (Channel, Frame) -> Channel {
    (c: Channel, f: Frame) => HandledOne(c, f)
  }

  /** `n` log entries handled, from this position on. */
  ghost function Stretch(c: Channel, log: seq<Frame>, from: nat, n: nat): Channel
    requires from + n <= |log|
  {
    Walk(Handling(), c, log, from, n)
  }

  /** In step, and as far along as `k` entries from this position on bring it. */
  ghost predicate Along(d: Channel, log: seq<Frame>, start: nat, from: nat, k: nat) {
    InStep(d, log) && d.lastId == if from + k <= start then start else from + k
  }

  lemma HandledLast(c: Channel, log: seq<Frame>, from: nat, n: nat)
    requires n > 0 && from + n <= |log|
    ensures Handled(c, log[from..from + n]) == HandledOne(Handled(c, log[from..from + (n - 1)]), log[from + (n - 1)])
  {
    var fs := log[from..from + n];
    assert fs[..|fs| - 1] == log[from..from + (n - 1)];
  }

  lemma {:induction false} StretchIsHandled(c: Channel, log: seq<Frame>, from: nat, n: nat)
    requires from + n <= |log|
    ensures Handled(c, log[from..from + n]) == Stretch(c, log, from, n)
  {
    if n > 0 {
      HandledLast(c, log, from, n);
      StretchIsHandled(c, log, from, n - 1);
    }
  }

  /** Entries that start at most a window before the client's position leave it in step, further along if they go on. */
  lemma StretchKeepsStep(c: Channel, log: seq<Frame>, from: nat, n: nat)
    requires Numbered(log) && InStep(c, log) && from + n <= |log| && from <= c.lastId <= from + MAX_DEDUP
    ensures var d := Stretch(c, log, from, n);
            InStep(d, log) && d.lastId == if from + n <= c.lastId then c.lastId else from + n
  {
    var inv := (d: Channel, k: nat) => Along(d, log, c.lastId, from, k);
    forall d: Channel, k: nat | k < n && inv(d, k)
      ensures inv(Handling()(d, log[from + k]), k + 1)
    {
      FrameKeepsStep(d, log, from + k);
    }
    WalkKeeps(Handling(), c, log, from, n, inv);
  }

  /** How many of the entries after the cursor arrive. */
  function Arriving(log: seq<Frame>, cursor: nat, cut: nat): nat
    requires cursor <= |log|
  {
    if cut < |log| - cursor then cut else |log| - cursor
  }

  /** What arrives of a replay. */
  lemma ReplayIsStretch(c: Channel, log: seq<Frame>, cursor: nat, cut: nat)
    requires Numbered(log) && cursor <= |log|
    ensures var n := Arriving(log, cursor, cut);
            Resumed(c, log, cursor, cut) == Handled(c.(status := Connecting), log[cursor..cursor + n])
            && Resumed(c, log, cursor, cut) == Stretch(c.(status := Connecting), log, cursor, n)
  {
    ReplayArrives(log, cursor, cut);
    StretchIsHandled(c.(status := Connecting), log, cursor, Arriving(log, cursor, cut));
  }

  lemma ReplayArrives(log: seq<Frame>, cursor: nat, cut: nat)
    requires Numbered(log) && cursor <= |log|
    ensures var frames := EventsAfter(log, cursor);
            (if cut < |frames| then frames[..cut] else frames) == log[cursor..cursor + Arriving(log, cursor, cut)]
  {
    AfterIsSuffix(log, cursor);
    CutSuffix(log, cursor, cut);
  }

  lemma CutSuffix<T>(xs: seq<T>, from: nat, cut: nat)
    requires from <= |xs|
    ensures (if cut < |xs| - from then xs[from..][..cut] else xs[from..])
         == xs[from..from + if cut < |xs| - from then cut else |xs| - from]
  {
  }

  datatype Connection = Connection(log: seq<Frame>, cut: nat)

  /** Reconnecting after every loss from the last id handed over. */
  function Reconnected(c: Channel, cs: seq<Connection>): Channel {
    if cs == [] then c
    else
      var d := Reconnected(c, cs[..|cs| - 1]);
      Resumed(d, cs[|cs| - 1].log, d.lastId, cs[|cs| - 1].cut)
  }

  /** The log only grows between connections. */
  ghost predicate Grows(log: seq<Frame>, cs: seq<Connection>) {
    && (forall i :: 0 <= i < |cs| ==> Numbered(cs[i].log) && log <= cs[i].log)
    && (forall i, j :: 0 <= i < j < |cs| ==> cs[i].log <= cs[j].log)
  }

  /** The log as of the last connection. */
  ghost function Latest(log: seq<Frame>, cs: seq<Connection>): seq<Frame> {
    if cs == [] then log else cs[|cs| - 1].log
  }

  lemma LongerLogKeepsStep(c: Channel, log: seq<Frame>, longer: seq<Frame>)
    requires InStep(c, log) && log <= longer
    ensures InStep(c, longer)
  {
  }

  lemma StepIsBounded(c: Channel, log: seq<Frame>)
    requires InStep(c, log)
    ensures |c.seen| <= MAX_DEDUP && (c.lastId == |log| ==> c.delivered == log)
  {
    WindowSize(c.lastId, MAX_DEDUP);
    assert log[..|log|] == log;
  }

  lemma ResumeKeepsStep(c: Channel, log: seq<Frame>, cut: nat)
    requires Numbered(log) && InStep(c, log)
    ensures var d := Resumed(c, log, c.lastId, cut);
            InStep(d, log) && d.lastId >= c.lastId && |d.seen| <= MAX_DEDUP
            && (cut >= |log| ==> d.delivered == log)
  {
    var n := Arriving(log, c.lastId, cut);
    ReplayIsStretch(c, log, c.lastId, cut);
    StretchKeepsStep(c.(status := Connecting), log, c.lastId, n);
    StepIsBounded(Resumed(c, log, c.lastId, cut), log);
  }

  /** Reconnecting keeps in step, and never goes back. */
  lemma {:induction false} ReconnectingKeepsStep(c: Channel, log: seq<Frame>, cs: seq<Connection>)
    requires Numbered(log) && InStep(c, log) && Grows(log, cs)
    ensures var d := Reconnected(c, cs);
            && InStep(d, Latest(log, cs)) && d.lastId >= c.lastId
            && (cs != [] && cs[|cs| - 1].cut >= |Latest(log, cs)| ==> d.delivered == Latest(log, cs))
  {
    if cs != [] {
      var init, last := cs[..|cs| - 1], cs[|cs| - 1];
      ReconnectingKeepsStep(c, log, init);
      var d := Reconnected(c, init);
      LongerLogKeepsStep(d, Latest(log, init), last.log);
      ResumeKeepsStep(d, last.log, last.cut);
    }
  }

  /** Exactly once: over any number of connections, each lost anywhere while the log keeps growing, the client has
      been handed a prefix of the log, each event once and in order; it remembers the ids of the last 512 of these, and
      no others; it never goes back; and one connection that is not lost brings it up to date. */
  lemma ExactlyOnce(c: Channel, log: seq<Frame>, cs: seq<Connection>)
    requires Numbered(log) && InStep(c, log) && Grows(log, cs)
    ensures var d := Reconnected(c, cs);
            && c.lastId <= d.lastId <= |Latest(log, cs)| && d.delivered == Latest(log, cs)[..d.lastId]
            && |d.seen| <= 512 && (forall i :: i in d.seen <==> 1 <= i <= d.lastId && d.lastId - 512 < i)
            && (cs != [] && cs[|cs| - 1].cut >= |Latest(log, cs)| ==> d.delivered == Latest(log, cs))
  {
    ReconnectingKeepsStep(c, log, cs);
    WindowIs(Reconnected(c, cs).lastId, 512);
  }

  lemma {:induction false} DeliveredOnlyGrows(c: Channel, fs: seq<Frame>)
    ensures c.delivered <= Handled(c, fs).delivered
  {
    if fs != [] {
      DeliveredOnlyGrows(c, fs[..|fs| - 1]);
    }
  }

  /** Resuming from an older cursor is harmless exactly as long as the cursor is at most a window behind (or nothing
      arrives): beyond it, events are handed over twice. */
  lemma OldCursorIsHarmlessWithinWindow(c: Channel, log: seq<Frame>, cursor: nat, cut: nat)
    requires Numbered(log) && InStep(c, log) && cursor <= c.lastId
    ensures Resumed(c, log, cursor, cut).delivered <= log
       <==> c.lastId - cursor <= 512 || cut == 0
  {
    if c.lastId - cursor <= MAX_DEDUP {
      RecentCursorIsHarmless(c, log, cursor, cut);
    } else {
      StaleCursorRepeats(c, log, cursor, cut);
    }
  }

  lemma RecentCursorIsHarmless(c: Channel, log: seq<Frame>, cursor: nat, cut: nat)
    requires Numbered(log) && InStep(c, log) && cursor <= c.lastId <= cursor + MAX_DEDUP
    ensures Resumed(c, log, cursor, cut).delivered <= log
  {
    ReplayIsStretch(c, log, cursor, cut);
    StretchKeepsStep(c.(status := Connecting), log, cursor, Arriving(log, cursor, cut));
  }

  lemma StaleCursorRepeats(c: Channel, log: seq<Frame>, cursor: nat, cut: nat)
    requires Numbered(log) && InStep(c, log) && c.lastId - cursor > MAX_DEDUP
    ensures Resumed(c, log, cursor, cut).delivered <= log <==> cut == 0
  {
    ReplayIsStretch(c, log, cursor, cut);
    var n := Arriving(log, cursor, cut);
    if n > 0 {
      StaleFrameIsRepeated(c.(status := Connecting), log, cursor, log[cursor..cursor + n]);
    }
  }

  lemma StaleFrameIsRepeated(c: Channel, log: seq<Frame>, cursor: nat, fs: seq<Frame>)
    requires Numbered(log) && InStep(c, log) && c.lastId - cursor > MAX_DEDUP
    requires fs != [] && fs[0] == log[cursor]
    ensures !(Handled(c, fs).delivered <= log)
  {
    WindowHas(c.lastId, MAX_DEDUP, cursor + 1);
    UnseenIsDelivered(c, fs);
    RepeatIsNoPrefix(c.delivered, log, cursor, Handled(c, fs).delivered);
  }

  lemma UnseenIsDelivered(c: Channel, fs: seq<Frame>)
    requires fs != [] && fs[0].id !in c.seen
    ensures c.delivered + [fs[0]] <= Handled(c, fs).delivered
  {
    HandledFirst(c, fs);
    DeliveredOnlyGrows(Noted(c, fs[0]), fs[1..]);
  }

  lemma RepeatIsNoPrefix(before: seq<Frame>, log: seq<Frame>, cursor: nat, after: seq<Frame>)
    requires Numbered(log) && cursor < |before| <= |log| && before + [log[cursor]] <= after
    ensures !(after <= log)
  {
    assert after[|before|] == (before + [log[cursor]])[|before|];
  }

  /** Frames are handled one after another. */
  lemma {:induction false} HandledFirst(c: Channel, fs: seq<Frame>)
    requires fs != []
    ensures Handled(c, fs) == Handled(if fs[0].id in c.seen then c else Noted(c, fs[0]), fs[1..])
  {
    var n := |fs| - 1;
    if n > 0 {
      HandledFirst(c, fs[..n]);
      assert fs[..n][1..] == fs[1..][..n - 1];
    }
  }
}
