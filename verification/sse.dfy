/** The reader of one server-sent event stream, line by line (src/cord_runtime/aegra_client.py, _iter_sse_events). */
module Sse {
  import opened Basics

  /** `data` is the text of the data lines, joined by line feeds. */
  datatype Frame = Frame(event: string, data: string, id: Option<string>)

  datatype Field = Blank | Comment | EventField(value: string) | DataField(value: string) | IdField(value: string) | Other

  /** The fields of a frame still open. */
  datatype Partial = Partial(event: Option<string>, data: seq<string>, id: Option<string>)

  const NOTHING: Partial := Partial(None, [], None)

  function TrimLeft(s: string): string {
    if |s| > 0 && IsSpace(s[0]) then TrimLeft(s[1..]) else s
  }

  function TrimRight(s: string): string {
    if |s| > 0 && IsSpace(Last(s)) then TrimRight(s[..|s| - 1]) else s
  }

  /** `str.strip()`. */
  function Strip(s: string): string {
    TrimRight(TrimLeft(s))
  }

  predicate StartsWith(s: string, prefix: string) {
    |prefix| <= |s| && s[..|prefix|] == prefix
  }

  function Classify(line: string): Field {
    if line == "" then Blank
    else if StartsWith(line, ":") then Comment
    else if StartsWith(line, "event:") then EventField(Strip(line[6..]))
    else if StartsWith(line, "data:") then DataField(Strip(line[5..]))
    else if StartsWith(line, "id:") then IdField(Strip(line[3..]))
    else Other
  }

  function JoinLines(lines: seq<string>): string {
    if |lines| == 0 then "" else if |lines| == 1 then lines[0] else lines[0] + "\n" + JoinLines(lines[1..])
  }

  function Fed(p: Partial, line: string): Partial {
    match Classify(line)
    case Blank => NOTHING
    case EventField(value) => p.(event := Some(value))
    case DataField(value) => p.(data := p.data + [value])
    case IdField(value) => p.(id := Some(value))
    case _ => p
  }

  /** A blank line ends a frame that has an event or data; an empty event name reads as `message`. */
  function Ended(p: Partial, line: string): seq<Frame> {
    if Classify(line) == Blank && (p.event.Some? || p.data != []) then
      [Frame(if p.event.Some? && p.event.value != "" then p.event.value else "message", JoinLines(p.data), p.id)]
    else []
  }

  /** Where a reader stands: the frame still open, and the frames so far. */
  datatype Reader = Reader(open: Partial, frames: seq<Frame>)

  const FRESH: Reader := Reader(NOTHING, [])

  function Take(r: Reader, line: string): Reader {
    Reader(Fed(r.open, line), r.frames + Ended(r.open, line))
  }

  function Feed(r: Reader, lines: seq<string>): Reader
    decreases |lines|
  {
    if |lines| == 0 then r else Feed(Take(r, lines[0]), lines[1..])
  }

  function Frames(lines: seq<string>): seq<Frame> {
    Feed(FRESH, lines).frames
  }

  lemma {:induction false} FeedAppend(r: Reader, a: seq<string>, b: seq<string>)
    ensures Feed(r, a + b) == Feed(Feed(r, a), b)
    decreases |a|
  {
    if |a| == 0 {
      assert a + b == b;
    } else {
      assert (a + b)[1..] == a[1..] + b;
      FeedAppend(Take(r, a[0]), a[1..], b);
    }
  }

  lemma FeedOne(r: Reader, line: string)
    ensures Feed(r, [line]) == Take(r, line)
  {
  }

  lemma {:induction false} FramesGrow(r: Reader, lines: seq<string>)
    ensures r.frames <= Feed(r, lines).frames
    decreases |lines|
  {
    if |lines| > 0 {
      FramesGrow(Take(r, lines[0]), lines[1..]);
    }
  }

  lemma ReadOneMore(lines: seq<string>, i: nat)
    requires i < |lines|
    ensures Feed(FRESH, lines[..i + 1]) == Take(Feed(FRESH, lines[..i]), lines[i])
  {
    assert lines[..i + 1] == lines[..i] + [lines[i]];
    FeedAppend(FRESH, lines[..i], [lines[i]]);
    FeedOne(Feed(FRESH, lines[..i]), lines[i]);
  }

  method IterEvents(lines: seq<string>) returns (frames: seq<Frame>)
    ensures frames == Frames(lines)
  {
    frames := [];
    var event: Option<string> := None;
    var dataLines: seq<string> := [];
    var eventId: Option<string> := None;
    for i := 0 to |lines|
      invariant Reader(Partial(event, dataLines, eventId), frames) == Feed(FRESH, lines[..i])
    {
      var line := lines[i];
      ReadOneMore(lines, i);
      if line == "" {
        if event.Some? || dataLines != [] {
          frames := frames + [Frame(if event.Some? && event.value != "" then event.value else "message", JoinLines(dataLines), eventId)];
        }
        event, dataLines, eventId := None, [], None;
        continue;
      }
      if StartsWith(line, ":") { continue; }
      if StartsWith(line, "event:") {
        event := Some(Strip(line[6..]));
      } else if StartsWith(line, "data:") {
        dataLines := dataLines + [Strip(line[5..])];
      } else if StartsWith(line, "id:") {
        eventId := Some(Strip(line[3..]));
      }
    }
    assert lines[..|lines|] == lines;
  }

  // ---------------------------------------------------------------- cut and commented streams

  /**
   A stream cut anywhere, even inside a line, gives a prefix of the whole stream's frames: the
   reader sees the whole lines before the cut, and at most a non-empty piece of the next one.
   */
  lemma CutIsPrefix(lines: seq<string>, k: nat, piece: string)
    requires k <= |lines|
    ensures Frames(lines[..k]) <= Frames(lines)
    ensures piece != "" ==> Frames(lines[..k] + [piece]) == Frames(lines[..k])
  {
    var r := Feed(FRESH, lines[..k]);
    assert lines == lines[..k] + lines[k..];
    FeedAppend(FRESH, lines[..k], lines[k..]);
    FramesGrow(r, lines[k..]);
    FeedAppend(FRESH, lines[..k], [piece]);
    FeedOne(r, piece);
  }

  /** Comment lines, wherever they come, change nothing. */
  lemma CommentsAreInvisible(a: seq<string>, comment: string, b: seq<string>)
    requires StartsWith(comment, ":")
    ensures Frames(a + [comment] + b) == Frames(a + b)
  {
    var r := Feed(FRESH, a);
    FeedAppend(FRESH, a + [comment], b);
    FeedAppend(FRESH, a, [comment]);
    FeedOne(r, comment);
    FeedAppend(FRESH, a, b);
    assert Take(r, comment) == r;
  }

  // ---------------------------------------------------------------- stream_lifecycle

  const LIFECYCLE_EVENTS: set<string> := {"metadata", "end", "error"}

  /** A frame the platform looks at: a lifecycle event whose data, if any, is JSON. */
  predicate OfLifecycle(frame: Frame, decodes: string -> bool) {
    frame.event in LIFECYCLE_EVENTS && (frame.data == "" || decodes(frame.data))
  }

  function Passed(frames: seq<Frame>, decodes: string -> bool): seq<Frame> {
    if |frames| == 0 then []
    else Passed(frames[..|frames| - 1], decodes) + if OfLifecycle(Last(frames), decodes) then [Last(frames)] else []
  }

  lemma {:induction false} PassedConcat(a: seq<Frame>, b: seq<Frame>, decodes: string -> bool)
    ensures Passed(a + b, decodes) == Passed(a, decodes) + Passed(b, decodes)
  {
    if |b| == 0 {
      assert a + b == a;
    } else {
      PassedConcat(a, b[..|b| - 1], decodes);
      assert (a + b)[..|a + b| - 1] == a + b[..|b| - 1];
    }
  }

  /** One connection: the lifecycle frames of its lines, the others dropped unparsed. */
  method StreamLifecycle(lines: seq<string>, decodes: string -> bool) returns (passed: seq<Frame>)
    ensures passed == Passed(Frames(lines), decodes)
  {
    var frames := IterEvents(lines);
    passed := [];
    for i := 0 to |frames|
      invariant passed == Passed(frames[..i], decodes)
    {
      assert frames[..i + 1][..i] == frames[..i];
      if frames[i].event !in LIFECYCLE_EVENTS { continue; }
      if frames[i].data != "" && !decodes(frames[i].data) { continue; }
      passed := passed + [frames[i]];
    }
    assert frames[..|frames|] == frames;
  }

  /** A connection that drops anywhere passes on a prefix of what the whole stream would. */
  lemma CutPassesPrefix(lines: seq<string>, k: nat, piece: string, decodes: string -> bool)
    requires k <= |lines|
    ensures Passed(Frames(lines[..k]), decodes) <= Passed(Frames(lines), decodes)
    ensures piece != "" ==> Passed(Frames(lines[..k] + [piece]), decodes) == Passed(Frames(lines[..k]), decodes)
  {
    CutIsPrefix(lines, k, piece);
    var cut, whole := Frames(lines[..k]), Frames(lines);
    assert whole == cut + whole[|cut|..];
    PassedConcat(cut, whole[|cut|..], decodes);
  }

  // ---------------------------------------------------------------- what a server writes

  /** Text a field line carries unchanged. */
  predicate Clean(s: string) {
    |s| > 0 ==> !IsSpace(s[0]) && !IsSpace(Last(s))
  }

  /** A frame as the wire format writes it. */
  datatype Message = Message(event: string, data: seq<string>, id: Option<string>)

  ghost predicate Sendable(m: Message) {
    m.event != "" && Clean(m.event) && (forall i | 0 <= i < |m.data| :: Clean(m.data[i])) && (m.id.Some? ==> Clean(m.id.value))
  }

  function DataLines(data: seq<string>): seq<string> {
    if |data| == 0 then [] else DataLines(data[..|data| - 1]) + ["data: " + Last(data)]
  }

  function Written(m: Message): seq<string> {
    ["event: " + m.event] + DataLines(m.data) + (if m.id.Some? then ["id: " + m.id.value] else []) + [""]
  }

  function WrittenAll(ms: seq<Message>): seq<string> {
    if |ms| == 0 then [] else WrittenAll(ms[..|ms| - 1]) + Written(Last(ms))
  }

  function Read(m: Message): Frame {
    Frame(m.event, JoinLines(m.data), m.id)
  }

  function ReadAll(ms: seq<Message>): seq<Frame> {
    if |ms| == 0 then [] else ReadAll(ms[..|ms| - 1]) + [Read(Last(ms))]
  }

  lemma StripClean(s: string)
    requires Clean(s)
    ensures Strip(" " + s) == s
  {
    assert (" " + s)[1..] == s && IsSpace(' ');
    assert TrimLeft(" " + s) == TrimLeft(s) == s;
  }

  lemma FieldsRead(s: string)
    requires Clean(s)
    ensures Classify("event: " + s) == EventField(s) && Classify("data: " + s) == DataField(s) && Classify("id: " + s) == IdField(s)
  {
    EventLine(s);
    DataLine(s);
    IdLine(s);
  }

  lemma EventLine(s: string)
    requires Clean(s)
    ensures Classify("event: " + s) == EventField(s)
  {
    StripClean(s);
    var e := "event: " + s;
    assert e[0] == 'e' && e[..6] == "event:" && e[6..] == " " + s;
  }

  lemma DataLine(s: string)
    requires Clean(s)
    ensures Classify("data: " + s) == DataField(s)
  {
    StripClean(s);
    var d := "data: " + s;
    assert d[0] == 'd' && d[..5] == "data:" && d[5..] == " " + s;
  }

  lemma IdLine(s: string)
    requires Clean(s)
    ensures Classify("id: " + s) == IdField(s)
  {
    StripClean(s);
    var i := "id: " + s;
    assert i[0] == 'i' && i[..3] == "id:" && i[3..] == " " + s;
  }

  lemma {:induction false} DataRead(r: Reader, data: seq<string>)
    requires forall i | 0 <= i < |data| :: Clean(data[i])
    ensures Feed(r, DataLines(data)) == r.(open := r.open.(data := r.open.data + data))
  {
    if |data| > 0 {
      var front := data[..|data| - 1];
      DataRead(r, front);
      FieldsRead(Last(data));
      FeedAppend(r, DataLines(front), ["data: " + Last(data)]);
      FeedOne(Feed(r, DataLines(front)), "data: " + Last(data));
      assert front + [Last(data)] == data;
      assert r.open.data + front + [Last(data)] == r.open.data + data;
    }
  }

  lemma IdRead(r: Reader, id: Option<string>)
    requires id.Some? ==> Clean(id.value)
    ensures Feed(r, if id.Some? then ["id: " + id.value] else []) == if id.Some? then r.(open := r.open.(id := id)) else r
  {
    if id.Some? {
      FieldsRead(id.value);
      FeedOne(r, "id: " + id.value);
    }
  }

  lemma EventRead(r: Reader, event: string)
    requires Clean(event)
    ensures Feed(r, ["event: " + event]) == r.(open := r.open.(event := Some(event)))
  {
    FieldsRead(event);
    FeedOne(r, "event: " + event);
  }

  lemma EndRead(r: Reader)
    requires r.open.event.Some? && r.open.event.value != ""
    ensures Feed(r, [""]) == Reader(NOTHING, r.frames + [Frame(r.open.event.value, JoinLines(r.open.data), r.open.id)])
  {
    FeedOne(r, "");
  }

  lemma MessageRead(r: Reader, m: Message)
    requires Sendable(m) && r.open == NOTHING
    ensures Feed(r, Written(m)) == Reader(NOTHING, r.frames + [Read(m)])
  {
    var ids := if m.id.Some? then ["id: " + m.id.value] else [];
    var begun := r.(open := Partial(Some(m.event), [], None));
    var fed := r.(open := Partial(Some(m.event), m.data, None));
    EventRead(r, m.event);
    DataRead(begun, m.data);
    assert begun.open.data + m.data == m.data;
    IdRead(fed, m.id);
    EndRead(r.(open := Partial(Some(m.event), m.data, m.id)));
    FeedAppend(r, ["event: " + m.event], DataLines(m.data));
    FeedAppend(r, ["event: " + m.event] + DataLines(m.data), ids);
    FeedAppend(r, ["event: " + m.event] + DataLines(m.data) + ids, [""]);
  }

  /** What is written is read back, frame for frame. */
  lemma {:induction false} RoundTrip(ms: seq<Message>)
    requires forall i | 0 <= i < |ms| :: Sendable(ms[i])
    ensures Feed(FRESH, WrittenAll(ms)) == Reader(NOTHING, ReadAll(ms))
  {
    if |ms| > 0 {
      var front := ms[..|ms| - 1];
      RoundTrip(front);
      FeedAppend(FRESH, WrittenAll(front), Written(Last(ms)));
      MessageRead(Feed(FRESH, WrittenAll(front)), Last(ms));
    }
  }

  lemma {:induction false} ReadAllConcat(a: seq<Message>, b: seq<Message>)
    ensures ReadAll(a + b) == ReadAll(a) + ReadAll(b)
  {
    if |b| == 0 {
      assert a + b == a;
    } else {
      ReadAllConcat(a, b[..|b| - 1]);
      assert (a + b)[..|a + b| - 1] == a + b[..|b| - 1];
    }
  }

  lemma DroppedFrame(a: seq<Frame>, f: Frame, b: seq<Frame>, decodes: string -> bool)
    requires !OfLifecycle(f, decodes)
    ensures Passed(a + [f] + b, decodes) == Passed(a + b, decodes)
  {
    PassedConcat(a + [f], b, decodes);
    PassedConcat(a, b, decodes);
    assert (a + [f])[..|a + [f]| - 1] == a;
  }

  lemma ReadAllAround(a: seq<Message>, m: Message, b: seq<Message>)
    ensures ReadAll(a + [m] + b) == ReadAll(a) + [Read(m)] + ReadAll(b)
  {
    ReadAllConcat(a + [m], b);
    assert (a + [m])[..|a + [m]| - 1] == a;
  }

  ghost predicate AllSendable(ms: seq<Message>) {
    forall i | 0 <= i < |ms| :: Sendable(ms[i])
  }

  lemma FramesRead(ms: seq<Message>)
    requires AllSendable(ms)
    ensures Frames(WrittenAll(ms)) == ReadAll(ms)
  {
    RoundTrip(ms);
  }

  /** What the graph itself sends, wherever it comes in the stream, is never passed on. */
  lemma GraphStateIsInvisible(a: seq<Message>, m: Message, b: seq<Message>, decodes: string -> bool)
    requires AllSendable(a + [m] + b) && AllSendable(a + b) && m.event !in LIFECYCLE_EVENTS
    ensures Passed(Frames(WrittenAll(a + [m] + b)), decodes) == Passed(Frames(WrittenAll(a + b)), decodes)
  {
    FramesRead(a + [m] + b);
    FramesRead(a + b);
    ReadAllAround(a, m, b);
    ReadAllConcat(a, b);
    NotOfLifecycle(m, decodes);
    DroppedFrame(ReadAll(a), Read(m), ReadAll(b), decodes);
  }

  lemma NotOfLifecycle(m: Message, decodes: string -> bool)
    requires m.event !in LIFECYCLE_EVENTS
    ensures !OfLifecycle(Read(m), decodes)
  {
  }

  lemma OfLifecycleWhen(m: Message, decodes: string -> bool)
    ensures OfLifecycle(Read(m), decodes) <==>
              (m.event == "metadata" || m.event == "end" || m.event == "error") && (JoinLines(m.data) == "" || decodes(JoinLines(m.data)))
  {
  }

  lemma PassedOne(f: Frame, decodes: string -> bool)
    ensures Passed([f], decodes) == if OfLifecycle(f, decodes) then [f] else []
  {
    assert [f][..0] == [];
    assert Passed([], decodes) == [];
  }

  /** A message is passed on, in its place, exactly when it is one of the three events and its data, if any, is JSON. */
  lemma LifecycleIsPassed(a: seq<Message>, m: Message, b: seq<Message>, decodes: string -> bool)
    requires AllSendable(a) && Sendable(m) && AllSendable(b)
    ensures
      var data := JoinLines(m.data);
      var own := if (m.event == "metadata" || m.event == "end" || m.event == "error") && (data == "" || decodes(data)) then [Frame(m.event, data, m.id)] else [];
      Passed(Frames(WrittenAll(a + [m] + b)), decodes) == Passed(Frames(WrittenAll(a)), decodes) + own + Passed(Frames(WrittenAll(b)), decodes)
  {
    FramesRead(a + [m] + b);
    FramesRead(a);
    FramesRead(b);
    ReadAllAround(a, m, b);
    OfLifecycleWhen(m, decodes);
    PassedConcat(ReadAll(a) + [Read(m)], ReadAll(b), decodes);
    PassedConcat(ReadAll(a), [Read(m)], decodes);
    PassedOne(Read(m), decodes);
  }
}
