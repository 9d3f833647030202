/** Server-sent event frames: how the service writes them and how the client reads them back from a stream cut into
    arbitrary chunks (src/service/chat.py `format_sse_frame`, frontend/lib/sse.ts `parseSse`, `consumeSse`). */
module SseFraming {
  import opened Wrappers

  /** Numbers and JSON as text. `dec` is None where JSON.parse throws; `empty` is the data of a frame without any. */
  datatype Codec<!D(!new)> = Codec(
    show: nat -> string,
    number: string -> int,
    enc: D -> string,
    dec: string -> Option<D>,
    empty: D)

  /** What String.trim removes. */
  predicate IsSpace(c: char) {
    || c in {' ', '\t', '\n', '\r', '\U{000B}', '\U{000C}', '\U{00A0}', '\U{1680}', '\U{202F}', '\U{205F}', '\U{3000}'}
    || c in {'\U{2028}', '\U{2029}', '\U{FEFF}'} || '\U{2000}' <= c <= '\U{200A}'
  }

  predicate OneLine(t: string) {
    '\n' !in t
  }

  /** Text without line breaks that reads back as what was written, and ends in no white space (a JSON object ends
      in a brace). */
  ghost predicate Lawful<D(!new)>(c: Codec<D>) {
    && (forall n: nat :: OneLine(c.show(n)) && c.number(c.show(n)) == n)
    && (forall d :: OneLine(c.enc(d)) && c.dec(c.enc(d)) == Some(d)
                    && c.enc(d) != "" && !IsSpace(c.enc(d)[|c.enc(d)| - 1]))
  }

  predicate Frozen(event: string) {
    event in {"accepted", "token", "node", "approval_required", "done", "error"}
  }

  datatype Frame<D> = Frame(id: Option<int>, event: string, data: D)

  // ----- writing -----

  /** One frame, or None for an event outside the frozen set. */
  function Format<D(!new)>(c: Codec<D>, seqNo: nat, event: string, data: D): Option<string> {
    if Frozen(event) then Some(Block(c, seqNo, event, data) + "\n\n") else None
  }

  function Block<D(!new)>(c: Codec<D>, seqNo: nat, event: string, data: D): string {
    IdLine(c, seqNo) + ("\n" + (EventLine(event) + ("\n" + DataLine(c, data))))
  }

  function IdLine<D(!new)>(c: Codec<D>, seqNo: nat): string {
    "id: " + c.show(seqNo)
  }

  function EventLine(event: string): string {
    "event: " + event
  }

  function DataLine<D(!new)>(c: Codec<D>, data: D): string {
    "data: " + c.enc(data)
  }

  /** The wire format, character by character. */
  lemma WireFormat<D(!new)>(c: Codec<D>, seqNo: nat, event: string, data: D)
    ensures Format(c, seqNo, event, data).Some?
       <==> event in {"accepted", "token", "node", "approval_required", "done", "error"}
    ensures Format(c, seqNo, event, data).Some? ==>
              Format(c, seqNo, event, data).value
              == "id: " + c.show(seqNo) + "\nevent: " + event + "\ndata: " + c.enc(data) + "\n\n"
  {
    var i, e, d := "id: " + c.show(seqNo), "event: " + event, "data: " + c.enc(data);
    assert i + ("\n" + (e + ("\n" + d))) + "\n\n" == i + "\n" + e + "\n" + d + "\n\n";
    assert i + "\n" + e == i + "\nevent: " + event;
    assert (i + "\nevent: " + event) + "\n" + d == (i + "\nevent: " + event) + "\ndata: " + c.enc(data);
  }

  // ----- reading one block -----

  function TrimStart(t: string): string {
    if t != "" && IsSpace(t[0]) then TrimStart(t[1..]) else t
  }

  function TrimEnd(t: string): string {
    if t != "" && IsSpace(t[|t| - 1]) then TrimEnd(t[..|t| - 1]) else t
  }

  function Lines(t: string): (ls: seq<string>)
    ensures ls != []
  {
    if t == "" then [""]
    else
      var rest := Lines(t[1..]);
      if t[0] == '\n' then [""] + rest else [[t[0]] + rest[0]] + rest[1..]
  }

  /** What the lines of a block have said so far. */
  datatype Reading<D> = Reading(id: Option<int>, event: Option<string>, data: D) | Threw

  function ReadLine<D(!new)>(c: Codec<D>, r: Reading<D>, line: string): Reading<D> {
    if r.Threw? then r
    else if "id: " <= line then r.(id := Some(c.number(line[4..])))
    else if "event: " <= line then r.(event := Some(line[7..]))
    else if "data: " <= line then
      var d := c.dec(line[6..]);
      if d.Some? then r.(data := d.value) else Threw
    else r
  }

  function ReadLines<D(!new)>(c: Codec<D>, r: Reading<D>, ls: seq<string>): Reading<D>
    decreases |ls|
  {
    if ls == [] then r else ReadLines(c, ReadLine(c, r, ls[0]), ls[1..])
  }

  /** The k-th line is the last that begins like this. */
  predicate LastLike(ls: seq<string>, prefix: string, k: int) {
    0 <= k < |ls| && prefix <= ls[k] && forall j :: k < j < |ls| ==> !(prefix <= ls[j])
  }

  predicate NoneLike(ls: seq<string>, prefix: string) {
    forall j :: 0 <= j < |ls| ==> !(prefix <= ls[j])
  }

  /** What the lines of a block say: of each kind the last one counts, and reading throws exactly at data that is not
      JSON. */
  lemma LinesSay<D(!new)>(c: Codec<D>, r: Reading<D>, ls: seq<string>, k: int)
    requires r.Reading?
    ensures var read := ReadLines(c, r, ls);
            && (read.Threw? <==> exists j :: 0 <= j < |ls| && "data: " <= ls[j] && c.dec(ls[j][6..]).None?)
            && (read.Reading? ==>
                  && (LastLike(ls, "id: ", k) ==> read.id == Some(c.number(ls[k][4..])))
                  && (LastLike(ls, "event: ", k) ==> read.event == Some(ls[k][7..]))
                  && (LastLike(ls, "data: ", k) ==> Some(read.data) == c.dec(ls[k][6..]))
                  && (NoneLike(ls, "id: ") ==> read.id == r.id) && (NoneLike(ls, "event: ") ==> read.event == r.event)
                  && (NoneLike(ls, "data: ") ==> read.data == r.data))
  {
    ThrowsSay(c, r, ls);
    if ReadLines(c, r, ls).Reading? {
      IdSays(c, r, ls, k);
      EventSays(c, r, ls, k);
      DataSays(c, r, ls, k);
    }
  }

  /** A line is of one kind at most. */
  lemma KindsDiffer(line: string)
    ensures "event: " <= line ==> line[0] == 'e' && !("id: " <= line)
    ensures "data: " <= line ==> line[0] == 'd' && !("id: " <= line) && !("event: " <= line)
  {
    assert "id: " <= line ==> line[0] == "id: "[0];
    assert "event: " <= line ==> line[0] == "event: "[0];
    assert "data: " <= line ==> line[0] == "data: "[0];
  }

  lemma LikeShifts(ls: seq<string>, prefix: string, k: int)
    requires ls != []
    ensures LastLike(ls, prefix, k) ==>
              if k == 0 then prefix <= ls[0] && NoneLike(ls[1..], prefix)
              else LastLike(ls[1..], prefix, k - 1) && ls[1..][k - 1] == ls[k]
    ensures NoneLike(ls, prefix) ==> !(prefix <= ls[0]) && NoneLike(ls[1..], prefix)
  {
    assert forall j :: 0 <= j < |ls| - 1 ==> ls[1..][j] == ls[j + 1];
  }

  lemma {:induction false} ThrowsSay<D(!new)>(c: Codec<D>, r: Reading<D>, ls: seq<string>)
    requires r.Reading?
    ensures ReadLines(c, r, ls).Threw?
       <==> exists j :: 0 <= j < |ls| && "data: " <= ls[j] && c.dec(ls[j][6..]).None?
    decreases |ls|
  {
    if ls != [] {
      var q := ReadLine(c, r, ls[0]);
      KindsDiffer(ls[0]);
      ThrewStays(c, ls[1..]);
      if q.Reading? {
        ThrowsSay(c, q, ls[1..]);
        assert forall j :: 0 < j < |ls| ==> ls[j] == ls[1..][j - 1];
      }
    }
  }

  lemma {:induction false} IdSays<D(!new)>(c: Codec<D>, r: Reading<D>, ls: seq<string>, k: int)
    requires r.Reading? && ReadLines(c, r, ls).Reading?
    ensures LastLike(ls, "id: ", k) ==> ReadLines(c, r, ls).id == Some(c.number(ls[k][4..]))
    ensures NoneLike(ls, "id: ") ==> ReadLines(c, r, ls).id == r.id
    decreases |ls|
  {
    if ls != [] {
      var q := ReadLine(c, r, ls[0]);
      KindsDiffer(ls[0]);
      ThrewStays(c, ls[1..]);
      IdSays(c, q, ls[1..], k - 1);
      LikeShifts(ls, "id: ", k);
    }
  }

  lemma {:induction false} EventSays<D(!new)>(c: Codec<D>, r: Reading<D>, ls: seq<string>, k: int)
    requires r.Reading? && ReadLines(c, r, ls).Reading?
    ensures LastLike(ls, "event: ", k) ==> ReadLines(c, r, ls).event == Some(ls[k][7..])
    ensures NoneLike(ls, "event: ") ==> ReadLines(c, r, ls).event == r.event
    decreases |ls|
  {
    if ls != [] {
      var q := ReadLine(c, r, ls[0]);
      KindsDiffer(ls[0]);
      ThrewStays(c, ls[1..]);
      EventSays(c, q, ls[1..], k - 1);
      LikeShifts(ls, "event: ", k);
    }
  }

  lemma {:induction false} DataSays<D(!new)>(c: Codec<D>, r: Reading<D>, ls: seq<string>, k: int)
    requires r.Reading? && ReadLines(c, r, ls).Reading?
    ensures LastLike(ls, "data: ", k) ==> Some(ReadLines(c, r, ls).data) == c.dec(ls[k][6..])
    ensures NoneLike(ls, "data: ") ==> ReadLines(c, r, ls).data == r.data
    decreases |ls|
  {
    if ls != [] {
      var q := ReadLine(c, r, ls[0]);
      KindsDiffer(ls[0]);
      ThrewStays(c, ls[1..]);
      DataSays(c, q, ls[1..], k - 1);
      LikeShifts(ls, "data: ", k);
    }
  }

  lemma {:induction false} ThrewStays<D(!new)>(c: Codec<D>, ls: seq<string>)
    ensures ReadLines(c, Threw, ls).Threw?
    decreases |ls|
  {
    if ls != [] {
      ThrewStays(c, ls[1..]);
    }
  }

  /** The frames handed over, and whether reading then failed. */
  datatype Delivery<D> = Delivery(frames: seq<Frame<D>>, threw: bool)

  function ReadBlock<D(!new)>(c: Codec<D>, block: string): Delivery<D> {
    var trimmed := TrimEnd(TrimStart(block));
    if trimmed == "" then Delivery([], false)
    else
      match ReadLines(c, Reading(None, None, c.empty), Lines(trimmed))
      case Threw => Delivery([], true)
      case Reading(id, event, data) =>
        if event.Some? && Frozen(event.value) then Delivery([Frame(id, event.value, data)], false)
        else Delivery([], false)
  }

  // ----- reading a stream -----

  /** The position of the first empty line. */
  function BlankLine(t: string): (i: Option<nat>)
    ensures i.Some? ==> i.value + 2 <= |t| && t[i.value] == '\n' && t[i.value + 1] == '\n'
    ensures forall k :: 0 <= k < |t| - 1 && (i.None? || k < i.value) ==> t[k] != '\n' || t[k + 1] != '\n'
  {
    if |t| < 2 then None
    else if t[0] == '\n' && t[1] == '\n' then Some(0)
    else
      match BlankLine(t[1..])
      case None => None
      case Some(i) =>
        assert forall k :: 0 < k < |t| - 1 ==> t[k] == t[1..][k - 1] && t[k + 1] == t[1..][k];
        Some(i + 1)
  }

  /** Each block up to an empty line, read in turn until one throws. */
  function Blocks<D>(read: string -> Delivery<D>, text: string): Delivery<D>
    decreases |text|
  {
    match BlankLine(text)
    case None => Delivery([], false)
    case Some(i) => After(read(text[..i]), Blocks(read, text[i + 2..]))
  }

  function Reader<D(!new)>(c: Codec<D>): string -> Delivery<D> {
    (block: string) => ReadBlock(c, block)
  }

  /** Everything a complete text delivers. */
  function Delivered<D(!new)>(c: Codec<D>, text: string): Delivery<D> {
    Blocks(Reader(c), text)
  }

  /** One delivery after another; nothing comes after a failure. */
  function After<D>(first: Delivery<D>, rest: Delivery<D>): Delivery<D> {
    if first.threw then first else Delivery(first.frames + rest.frames, rest.threw)
  }

  /** The unread end of a text: what follows its last empty line. */
  function Pending(text: string): (rest: string)
    ensures BlankLine(rest).None? && |rest| <= |text|
    decreases |text|
  {
    match BlankLine(text)
    case None => text
    case Some(i) => Pending(text[i + 2..])
  }

  function Join(chunks: seq<string>): string {
    if chunks == [] then "" else Join(chunks[..|chunks| - 1]) + chunks[|chunks| - 1]
  }

  lemma BlankLineIs(t: string, i: nat)
    requires i + 2 <= |t| && t[i] == '\n' && t[i + 1] == '\n'
    requires forall k :: 0 <= k < i ==> t[k] != '\n' || t[k + 1] != '\n'
    ensures BlankLine(t) == Some(i)
  {
  }

  /** More text does not move the first empty line. */
  lemma BlankLineStays(a: string, b: string)
    requires BlankLine(a).Some?
    ensures BlankLine(a + b) == BlankLine(a)
  {
    var i := BlankLine(a).value;
    forall k | 0 <= k < i
      ensures (a + b)[k] != '\n' || (a + b)[k + 1] != '\n'
    {
      assert (a + b)[k] == a[k] && (a + b)[k + 1] == a[k + 1];
    }
    BlankLineIs(a + b, i);
  }

  /** Text that arrives in two parts delivers what its first part delivers, then what the rest delivers after the
      unread end of the first. */
  lemma {:induction false} PendingInParts(a: string, b: string)
    ensures Pending(a + b) == Pending(Pending(a) + b)
    decreases |a|
  {
    if BlankLine(a).Some? {
      var i := BlankLine(a).value;
      BlankLineStays(a, b);
      assert (a + b)[i + 2..] == a[i + 2..] + b;
      PendingInParts(a[i + 2..], b);
    }
  }

  /** The first block of a text stays its first block when more text follows. */
  lemma BlocksStep<D>(read: string -> Delivery<D>, a: string, b: string, i: nat)
    requires BlankLine(a) == Some(i)
    ensures i + 2 <= |a|
    ensures Blocks(read, a) == After(read(a[..i]), Blocks(read, a[i + 2..]))
    ensures Blocks(read, a + b) == After(read(a[..i]), Blocks(read, a[i + 2..] + b))
  {
    BlankLineStays(a, b);
    assert (a + b)[..i] == a[..i] && (a + b)[i + 2..] == a[i + 2..] + b;
  }

  lemma {:induction false} BlocksInParts<D>(read: string -> Delivery<D>, a: string, b: string)
    ensures Blocks(read, a).threw ==> Blocks(read, a + b) == Blocks(read, a)
    ensures !Blocks(read, a).threw ==>
              Blocks(read, a + b) == After(Blocks(read, a), Blocks(read, Pending(a) + b))
              && Pending(a + b) == Pending(Pending(a) + b)
    decreases |a|
  {
    PendingInParts(a, b);
    if BlankLine(a).Some? {
      var i := BlankLine(a).value;
      BlocksStep(read, a, b, i);
      BlocksInParts(read, a[i + 2..], b);
      AfterAssociates(read(a[..i]), Blocks(read, a[i + 2..]), Blocks(read, Pending(a) + b));
    }
  }

  lemma DeliverInParts<D(!new)>(c: Codec<D>, a: string, b: string)
    ensures Delivered(c, a).threw ==> Delivered(c, a + b) == Delivered(c, a)
    ensures !Delivered(c, a).threw ==>
              Delivered(c, a + b) == After(Delivered(c, a), Delivered(c, Pending(a) + b))
              && Pending(a + b) == Pending(Pending(a) + b)
  {
    BlocksInParts(Reader(c), a, b);
  }

  lemma AfterAssociates<D>(p: Delivery<D>, q: Delivery<D>, r: Delivery<D>)
    ensures After(p, After(q, r)) == After(After(p, q), r)
  {
    assert p.frames + (q.frames + r.frames) == (p.frames + q.frames) + r.frames;
  }

  /** The client's loop: append a chunk to the buffer, cut off every complete block, hand over its frames. */
  method ConsumeSse<D(!new)>(c: Codec<D>, chunks: seq<string>) returns (got: Delivery<D>)
    ensures got == Delivered(c, Join(chunks))
  {
    got := Delivery([], false);
    var buffer := "";
    assert chunks[..0] == [];
    for n := 0 to |chunks|
      invariant !got.threw && got == Delivered(c, Join(chunks[..n])) && buffer == Pending(Join(chunks[..n]))
    {
      assert chunks[..n + 1][..n] == chunks[..n];
      DeliverInParts(c, Join(chunks[..n]), chunks[n]);
      ghost var before := got;
      buffer := buffer + chunks[n];
      got, buffer := Drain(c, got, buffer);
      if got.threw {
        FailureIsFinal(c, chunks, n + 1);
        return;
      }
    }
    assert chunks[..|chunks|] == chunks;
  }

  method Drain<D(!new)>(c: Codec<D>, before: Delivery<D>, text: string) returns (got: Delivery<D>, buffer: string)
    requires !before.threw
    ensures got == After(before, Delivered(c, text))
    ensures !got.threw ==> buffer == Pending(text)
  {
    got, buffer := before, text;
    while BlankLine(buffer).Some?
      invariant !got.threw && Pending(buffer) == Pending(text)
      invariant After(before, Delivered(c, text)) == After(got, Delivered(c, buffer))
      decreases |buffer|
    {
      var i := BlankLine(buffer).value;
      var first := ReadBlock(c, buffer[..i]);
      AfterAssociates(got, first, Delivered(c, buffer[i + 2..]));
      got := After(got, first);
      if got.threw {
        return;
      }
      buffer := buffer[i + 2..];
    }
  }

  /** Once reading has failed, later chunks change nothing. */
  lemma {:induction false} FailureIsFinal<D(!new)>(c: Codec<D>, chunks: seq<string>, n: nat)
    requires n <= |chunks| && Delivered(c, Join(chunks[..n])).threw
    ensures Delivered(c, Join(chunks)) == Delivered(c, Join(chunks[..n]))
    decreases |chunks| - n
  {
    if n < |chunks| {
      assert chunks[..n + 1][..n] == chunks[..n];
      DeliverInParts(c, Join(chunks[..n]), chunks[n]);
      FailureIsFinal(c, chunks, n + 1);
    } else {
      assert chunks[..n] == chunks;
    }
  }

  /** A block and what follows it, read into one result; a failure leaves nothing. */
  function AllOrNothing<D>(first: Delivery<D>, rest: Delivery<D>): Delivery<D> {
    if first.threw || rest.threw then Delivery([], true) else Delivery(first.frames + rest.frames, false)
  }

  /** `parseSse` on a whole text: every block, the unterminated last one included. */
  function ParseSse<D(!new)>(c: Codec<D>, text: string): Delivery<D>
    decreases |text|
  {
    match BlankLine(text)
    case None => ReadBlock(c, text)
    case Some(i) =>
      AllOrNothing(ReadBlock(c, text[..i]), ParseSse(c, text[i + 2..]))
  }

  /** Parsing a whole text and consuming it as a stream differ only in the unterminated end. */
  lemma {:induction false} ParsingReadsTheEndToo<D(!new)>(c: Codec<D>, text: string)
    ensures ParseSse(c, text).threw <==> Delivered(c, text).threw || ReadBlock(c, Pending(text)).threw
    ensures !ParseSse(c, text).threw ==>
              ParseSse(c, text).frames == Delivered(c, text).frames + ReadBlock(c, Pending(text)).frames
    decreases |text|
  {
    if BlankLine(text).Some? {
      var i := BlankLine(text).value;
      ParsingReadsTheEndToo(c, text[i + 2..]);
      EndsAgree(ReadBlock(c, text[..i]), Delivered(c, text[i + 2..]), ReadBlock(c, Pending(text)),
                ParseSse(c, text[i + 2..]));
    }
  }

  /** Parsing what follows a block, against streaming it and reading its end. */
  lemma EndsAgree<D>(first: Delivery<D>, stream: Delivery<D>, end: Delivery<D>, whole: Delivery<D>)
    requires whole.threw <==> stream.threw || end.threw
    requires !whole.threw ==> whole.frames == stream.frames + end.frames
    ensures AllOrNothing(first, whole).threw <==> After(first, stream).threw || end.threw
    ensures !AllOrNothing(first, whole).threw ==>
              AllOrNothing(first, whole).frames == After(first, stream).frames + end.frames
  {
    assert first.frames + (stream.frames + end.frames) == (first.frames + stream.frames) + end.frames;
  }

  // ----- the round trip -----

  lemma {:induction false} LinesOfOne(t: string)
    requires OneLine(t)
    ensures Lines(t) == [t]
  {
    if t != "" {
      assert t[0] in t;
      LinesOfOne(t[1..]);
      assert [t[0]] + t[1..] == t;
    }
  }

  lemma {:induction false} LinesSplit(a: string, b: string)
    requires OneLine(a)
    ensures Lines(a + ("\n" + b)) == [a] + Lines(b)
    decreases |a|
  {
    var t := a + ("\n" + b);
    if a == "" {
      assert t[1..] == b;
    } else {
      assert t[0] == a[0] && a[0] in a;
      assert t[1..] == a[1..] + ("\n" + b);
      LinesSplit(a[1..], b);
      assert [a[0]] + a[1..] == a;
      assert Lines(t[1..])[0] == a[1..] && Lines(t[1..])[1..] == Lines(b);
    }
  }

  lemma OneLineConcat(a: string, b: string)
    requires OneLine(a) && OneLine(b)
    ensures OneLine(a + b)
  {
  }

  lemma WrittenLines<D(!new)>(c: Codec<D>, n: nat, event: string, data: D)
    requires Lawful(c) && Frozen(event)
    ensures OneLine(IdLine(c, n)) && OneLine(EventLine(event)) && OneLine(DataLine(c, data))
  {
    OneLineConcat("id: ", c.show(n));
    OneLineConcat("event: ", event);
    OneLineConcat("data: ", c.enc(data));
  }

  /** A written block has three lines. */
  lemma BlockShape<D(!new)>(c: Codec<D>, n: nat, event: string, data: D)
    requires Lawful(c) && Frozen(event)
    ensures Lines(Block(c, n, event, data)) == [IdLine(c, n), EventLine(event), DataLine(c, data)]
  {
    WrittenLines(c, n, event, data);
    ThreeLines(IdLine(c, n), EventLine(event), DataLine(c, data));
  }

  lemma ThreeLines(x: string, y: string, z: string)
    requires OneLine(x) && OneLine(y) && OneLine(z)
    ensures Lines(x + ("\n" + (y + ("\n" + z)))) == [x, y, z]
  {
    LinesSplit(x, y + ("\n" + z));
    LinesSplit(y, z);
    LinesOfOne(z);
  }

  lemma BlockIsTrim<D(!new)>(c: Codec<D>, n: nat, event: string, data: D)
    requires Lawful(c)
    ensures var b := Block(c, n, event, data); TrimEnd(TrimStart(b)) == b && b != ""
  {
    var b := Block(c, n, event, data);
    assert b[0] == 'i';
    assert b[|b| - 1] == c.enc(data)[|c.enc(data)| - 1];
  }

  lemma BlockReadsBack<D(!new)>(c: Codec<D>, n: nat, event: string, data: D)
    requires Lawful(c) && Frozen(event)
    ensures ReadBlock(c, Block(c, n, event, data)) == Delivery([Frame(Some(n), event, data)], false)
  {
    BlockIsTrim(c, n, event, data);
    BlockShape(c, n, event, data);
    LinesReadBack(c, n, event, data);
  }

  lemma LinesReadBack<D(!new)>(c: Codec<D>, n: nat, event: string, data: D)
    requires Lawful(c)
    ensures ReadLines(c, Reading(None, None, c.empty), [IdLine(c, n), EventLine(event), DataLine(c, data)])
         == Reading(Some(n), Some(event), data)
  {
    var r0: Reading<D> := Reading(None, None, c.empty);
    IdReadsBack(c, r0, n);
    EventReadsBack(c, r0.(id := Some(n)), event);
    DataReadsBack(c, r0.(id := Some(n), event := Some(event)), data);
    ReadThree(c, r0, IdLine(c, n), EventLine(event), DataLine(c, data));
  }

  lemma ReadThree<D(!new)>(c: Codec<D>, r: Reading<D>, x: string, y: string, z: string)
    ensures ReadLines(c, r, [x, y, z]) == ReadLine(c, ReadLine(c, ReadLine(c, r, x), y), z)
  {
    var p, q := ReadLine(c, r, x), ReadLine(c, ReadLine(c, r, x), y);
    calc {
      ReadLines(c, r, [x, y, z]);
    ==  { assert [x, y, z][1..] == [y, z]; }
      ReadLines(c, p, [y, z]);
    ==  { assert [y, z][1..] == [z]; }
      ReadLines(c, q, [z]);
    ==  { assert [z][1..] == []; }
      ReadLines(c, ReadLine(c, q, z), []);
    ==
      ReadLine(c, q, z);
    }
  }

  lemma IdReadsBack<D(!new)>(c: Codec<D>, r: Reading<D>, n: nat)
    requires Lawful(c) && r.Reading?
    ensures ReadLine(c, r, IdLine(c, n)) == r.(id := Some(n))
  {
    assert IdLine(c, n)[4..] == c.show(n);
  }

  lemma EventReadsBack<D(!new)>(c: Codec<D>, r: Reading<D>, event: string)
    requires r.Reading?
    ensures ReadLine(c, r, EventLine(event)) == r.(event := Some(event))
  {
    var line := EventLine(event);
    assert line[0] == 'e' && line[7..] == event;
  }

  lemma DataReadsBack<D(!new)>(c: Codec<D>, r: Reading<D>, data: D)
    requires Lawful(c) && r.Reading?
    ensures ReadLine(c, r, DataLine(c, data)) == r.(data := data)
  {
    var line := DataLine(c, data);
    assert line[0] == 'd' && line[6..] == c.enc(data);
  }

  /** The first empty line of three lines, an empty line, and anything after it. */
  lemma FirstBlank(x: string, y: string, z: string, rest: string)
    requires OneLine(x) && OneLine(y) && OneLine(z) && y != "" && z != ""
    ensures var block := x + ("\n" + (y + ("\n" + z)));
            BlankLine(block + "\n\n" + rest) == Some(|block|)
  {
    var block := x + ("\n" + (y + ("\n" + z)));
    var t := block + "\n\n" + rest;
    assert forall k :: 0 <= k < |block| ==> t[k] == block[k];
    assert t[|block|] == '\n' && t[|block| + 1] == '\n';
    forall k | 0 <= k < |block|
      ensures t[k] != '\n' || t[k + 1] != '\n'
    {
      NoBlankInside(x, y, z, k);
    }
    BlankLineIs(t, |block|);
  }

  lemma NoBlankInside(x: string, y: string, z: string, k: nat)
    requires OneLine(x) && OneLine(y) && OneLine(z) && y != "" && z != ""
    requires k < |x| + |y| + |z| + 2
    ensures var block := x + ("\n" + (y + ("\n" + z)));
            block[k] != '\n' || (k + 1 < |block| && block[k + 1] != '\n')
  {
    var block := x + ("\n" + (y + ("\n" + z)));
    if k < |x| {
      assert block[k] == x[k];
    } else if k == |x| {
      assert block[k + 1] == y[0];
    } else if k < |x| + 1 + |y| {
      assert block[k] == y[k - |x| - 1];
    } else if k == |x| + 1 + |y| {
      assert block[k + 1] == z[0];
    } else {
      assert block[k] == z[k - |x| - |y| - 2];
    }
  }

  /** One written frame, then anything: the frame is delivered first. */
  lemma FrameThenRest<D(!new)>(c: Codec<D>, n: nat, event: string, data: D, rest: string)
    requires Lawful(c) && Frozen(event)
    ensures var text := Block(c, n, event, data) + "\n\n" + rest;
            Delivered(c, text) == After(Delivery([Frame(Some(n), event, data)], false), Delivered(c, rest))
  {
    var block := Block(c, n, event, data);
    var text := block + "\n\n" + rest;
    WrittenLines(c, n, event, data);
    FirstBlank(IdLine(c, n), EventLine(event), DataLine(c, data), rest);
    BlockReadsBack(c, n, event, data);
    assert text[..|block|] == block && text[|block| + 2..] == rest;
  }

  datatype Event<D> = Event(seqNo: nat, name: string, data: D)

  /** The response body for a list of events. */
  function Written<D(!new)>(c: Codec<D>, es: seq<Event<D>>): string
    requires forall i :: 0 <= i < |es| ==> Frozen(es[i].name)
  {
    if es == [] then ""
    else Format(c, es[0].seqNo, es[0].name, es[0].data).value + Written(c, es[1..])
  }

  function FramesOf<D(!new)>(es: seq<Event<D>>): (fs: seq<Frame<D>>)
    ensures |fs| == |es| && forall i :: 0 <= i < |es| ==> fs[i] == Frame(Some(es[i].seqNo), es[i].name, es[i].data)
  {
    seq(|es|, i requires 0 <= i < |es| => Frame(Some(es[i].seqNo), es[i].name, es[i].data))
  }

  lemma FirstWritten<D(!new)>(c: Codec<D>, es: seq<Event<D>>)
    requires es != [] && forall i :: 0 <= i < |es| ==> Frozen(es[i].name)
    ensures Written(c, es) == Block(c, es[0].seqNo, es[0].name, es[0].data) + "\n\n" + Written(c, es[1..])
  {
  }

  lemma FirstFrame<D(!new)>(es: seq<Event<D>>)
    requires es != []
    ensures FramesOf(es) == [Frame(Some(es[0].seqNo), es[0].name, es[0].data)] + FramesOf(es[1..])
  {
  }

  lemma {:induction false} WrittenIsDelivered<D(!new)>(c: Codec<D>, es: seq<Event<D>>)
    requires Lawful(c) && forall i :: 0 <= i < |es| ==> Frozen(es[i].name)
    ensures Delivered(c, Written(c, es)) == Delivery(FramesOf(es), false)
    decreases |es|
  {
    if es != [] {
      var e := es[0];
      WrittenIsDelivered(c, es[1..]);
      FrameThenRest(c, e.seqNo, e.name, e.data, Written(c, es[1..]));
      FirstWritten(c, es);
      FirstFrame(es);
    }
  }

  /** The round trip: however the written text is cut into chunks, the client is handed exactly the events, in order. */
  method RoundTrip<D(!new)>(c: Codec<D>, es: seq<Event<D>>, chunks: seq<string>) returns (got: Delivery<D>)
    requires Lawful(c) && forall i :: 0 <= i < |es| ==> Frozen(es[i].name)
    requires Join(chunks) == Written(c, es)
    ensures got == Delivery(FramesOf(es), false)
  {
    WrittenIsDelivered(c, es);
    got := ConsumeSse(c, chunks);
  }
}
