/** Server-sent events: the buffer that turns chunks of text into events, and the frames it
    must give back whole (section 9.2.6 of the WHATWG HTML standard). */
module Sse {
  import opened Values
  import opened CanonicalJson

  const DATA := "data:"
  const NEWLINE := '\n'

  /** A partial line, the data lines of the event in progress, and the events completed. */
  datatype Stage = Stage(buffer: string, dataLines: seq<string>, events: seq<string>)

  const START := Stage("", [], [])

  /** Where the first newline is, or the length when there is none. */
  function FindNewline(s: string): (i: nat)
    ensures i <= |s|
    ensures i == |s| <==> NEWLINE !in s
  {
    if s == "" then 0 else if s[0] == NEWLINE then 0 else 1 + FindNewline(s[1..])
  }

  function WithoutReturn(line: string): string {
    if line != "" && Last(line) == '\r' then Init(line) else line
  }

  function WithoutSpace(value: string): string {
    if value != "" && value[0] == ' ' then value[1..] else value
  }

  function JoinLines(lines: seq<string>): string {
    if lines == [] then ""
    else if |lines| == 1 then lines[0]
    else JoinLines(Init(lines)) + [NEWLINE] + Last(lines)
  }

  /** What a complete line does. */
  function Line(s: Stage, line: string): Stage {
    if line == "" then Dispatched(s)
    else if DATA <= line then s.(dataLines := s.dataLines + [WithoutSpace(line[|DATA|..])])
    else s
  }

  function Dispatched(s: Stage): Stage {
    if s.dataLines == [] then s else Stage(s.buffer, [], s.events + [JoinLines(s.dataLines)])
  }

  predicate Settled(s: Stage) {
    FindNewline(s.buffer) == |s.buffer|
  }

  /** Takes one complete line off the buffer. */
  function Popped(s: Stage): (r: Stage)
    requires !Settled(s)
    ensures |r.buffer| < |s.buffer|
  {
    var i := FindNewline(s.buffer);
    Line(s.(buffer := s.buffer[i + 1..]), WithoutReturn(s.buffer[..i]))
  }

  /** Takes complete lines off the buffer until none is left. */
  function Drained(s: Stage): (r: Stage)
    ensures Settled(r)
    decreases |s.buffer|
  {
    if Settled(s) then s else Drained(Popped(s))
  }

  function WithText(s: Stage, text: string): Stage {
    Stage(s.buffer + text, s.dataLines, s.events)
  }

  function Fed(s: Stage, text: string): Stage {
    Drained(WithText(s, text))
  }

  function FedAll(s: Stage, chunks: seq<string>): Stage {
    if chunks == [] then s else Fed(FedAll(s, Init(chunks)), Last(chunks))
  }

  /** `_SseLineBuffer` */
  class SseLineBuffer {
    var buffer: string
    var dataLines: seq<string>

    ghost function With(events: seq<string>): Stage
      reads this
    {
      Stage(buffer, dataLines, events)
    }

    constructor ()
      ensures With([]) == START
    {
      buffer, dataLines := "", [];
    }

    method Feed(text: string) returns (events: seq<string>)
      modifies this
      ensures With(events) == Fed(old(With([])), text)
    {
      buffer := buffer + text;
      events := [];
      ghost var start := With([]);
      while true
        invariant Drained(start) == Drained(With(events))
        decreases |buffer|
      {
        var newline := FindNewline(buffer);
        if newline == |buffer| {
          break;
        }
        ghost var before := With(events);
        var line := buffer[..newline];
        buffer := buffer[newline + 1..];
        var event := ConsumeLine(WithoutReturn(line), events);
        events := if event.Some? then events + [event.value] else events;
        assert With(events) == Popped(before);
      }
    }

    method ConsumeLine(line: string, ghost events: seq<string>) returns (event: Option<string>)
      modifies `dataLines
      ensures With(if event.Some? then events + [event.value] else events) == Line(old(With(events)), line)
    {
      if line == "" {
        event := Dispatch(events);
        return;
      }
      if line[0] == ':' || !(DATA <= line) {
        return None;
      }
      dataLines := dataLines + [WithoutSpace(line[|DATA|..])];
      return None;
    }

    method Dispatch(ghost events: seq<string>) returns (event: Option<string>)
      modifies `dataLines
      ensures With(if event.Some? then events + [event.value] else events) == Dispatched(old(With(events)))
    {
      if dataLines == [] {
        return None;
      }
      event := Some(JoinLines(dataLines));
      dataLines := [];
    }

    /** The event in progress at the end of the stream. */
    method Flush(ghost events: seq<string>) returns (event: Option<string>)
      modifies `dataLines
      ensures With(if event.Some? then events + [event.value] else events) == Dispatched(old(With(events)))
    {
      event := Dispatch(events);
    }
  }

  /** The events of one response: every chunk fed, then the flush.  They are those of the whole
      text taken at once. */
  method IterSseEvents(chunks: seq<string>) returns (events: seq<string>)
    ensures events == Dispatched(Fed(START, Concat(chunks))).events
  {
    var parser := new SseLineBuffer();
    events := [];
    var i := 0;
    while i < |chunks|
      invariant 0 <= i <= |chunks|
      invariant parser.With(events) == FedAll(START, chunks[..i])
    {
      ghost var before := parser.With([]);
      var more := parser.Feed(chunks[i]);
      FedCarried(before, chunks[i], events);
      FedNext(chunks, i);
      events := events + more;
      i := i + 1;
    }
    assert chunks[..i] == chunks;
    ChunkIndependent(START, chunks);
    var trailing := parser.Flush(events);
    events := if trailing.Some? then events + [trailing.value] else events;
  }

  lemma FedNext(chunks: seq<string>, i: nat)
    requires i < |chunks|
    ensures FedAll(START, chunks[..i + 1]) == Fed(FedAll(START, chunks[..i]), chunks[i])
  {
    assert Init(chunks[..i + 1]) == chunks[..i];
  }

  /** Feeding a buffer that has given its events away is feeding one that still holds them. */
  lemma FedCarried(s: Stage, text: string, events: seq<string>)
    requires s.events == []
    ensures Fed(Stage(s.buffer, s.dataLines, events), text) == After(events, Fed(s, text))
  {
    EventsCarried(WithText(s, text), events);
    assert events + [] == events;
  }

  // ------------------------------------------------------- chunk independence

  /** Events already completed change nothing but where the next ones go. */
  lemma {:induction false} EventsCarried(s: Stage, before: seq<string>)
    ensures Drained(After(before, s)) == After(before, Drained(s))
    decreases |s.buffer|
  {
    if !Settled(s) {
      PoppedCarries(s, before);
      EventsCarried(Popped(s), before);
    }
  }

  function After(before: seq<string>, s: Stage): Stage {
    Stage(s.buffer, s.dataLines, before + s.events)
  }

  lemma PoppedCarries(s: Stage, before: seq<string>)
    requires !Settled(s)
    ensures Popped(After(before, s)) == After(before, Popped(s))
  {
    var event := [JoinLines(s.dataLines)];
    assert (before + s.events) + event == before + (s.events + event);
  }

  lemma {:induction false} FindNewlineAppend(a: string, b: string)
    ensures FindNewline(a + b) == if FindNewline(a) < |a| then FindNewline(a) else |a| + FindNewline(b)
  {
    if a == "" {
      assert a + b == b;
    } else if a[0] != NEWLINE {
      assert (a + b)[1..] == a[1..] + b;
      FindNewlineAppend(a[1..], b);
    }
  }

  /** Draining before more text arrives or after it makes no difference. */
  lemma {:induction false} DrainedAppend(s: Stage, text: string)
    ensures Fed(s, text) == Fed(Drained(s), text)
    decreases |s.buffer|
  {
    if !Settled(s) {
      PoppedAppend(s, text);
      DrainedAppend(Popped(s), text);
    }
  }

  lemma PoppedAppend(s: Stage, text: string)
    requires !Settled(s)
    ensures !Settled(WithText(s, text))
    ensures Popped(WithText(s, text)) == WithText(Popped(s), text)
  {
    var i := FindNewline(s.buffer);
    FindNewlineAppend(s.buffer, text);
    assert (s.buffer + text)[..i] == s.buffer[..i];
    assert (s.buffer + text)[i + 1..] == s.buffer[i + 1..] + text;
  }

  function Concat(chunks: seq<string>): string {
    if chunks == [] then "" else Concat(Init(chunks)) + Last(chunks)
  }

  /** However a text is cut into chunks, the events, the leftover line and the data lines are
      those of feeding it at once; the flush reads nothing else. */
  lemma {:induction false} ChunkIndependent(s: Stage, chunks: seq<string>)
    requires Settled(s)
    ensures FedAll(s, chunks) == Fed(s, Concat(chunks))
  {
    if chunks == [] {
      assert s.buffer + "" == s.buffer;
    } else {
      var text := Concat(Init(chunks));
      ChunkIndependent(s, Init(chunks));
      DrainedAppend(WithText(s, text), Last(chunks));
      assert (s.buffer + text) + Last(chunks) == s.buffer + Concat(chunks);
    }
  }

  // ------------------------------------------------------------------- frames

  /** A JSON body on one line, and the event's name, empty when absent. */
  datatype Frame = Frame(body: string, event: string)

  /** `sse_frame` */
  function FrameText(f: Frame): string {
    EventLine(f.event) + ("data: " + f.body + [NEWLINE] + [NEWLINE])
  }

  function EventLine(event: string): string {
    if event == "" then "" else "event: " + event + [NEWLINE]
  }

  predicate NoNewline(s: string) {
    NEWLINE !in s
  }

  /** What a JSON body written on one line, and an event's name, satisfy. */
  predicate OneLine(f: Frame) {
    NoNewline(f.body) && NoNewline(f.event) && (f.body == "" || Last(f.body) != '\r')
  }

  predicate AllOneLine(frames: seq<Frame>) {
    frames == [] || (OneLine(frames[0]) && AllOneLine(frames[1..]))
  }

  function FrameTexts(frames: seq<Frame>): string {
    if frames == [] then "" else FrameText(frames[0]) + FrameTexts(frames[1..])
  }

  function Bodies(frames: seq<Frame>): seq<string> {
    if frames == [] then [] else [frames[0].body] + Bodies(frames[1..])
  }

  lemma {:induction false} NoneFound(line: string)
    requires NoNewline(line)
    ensures FindNewline(line) == |line|
  {
    if line != "" {
      assert line[0] in line;
      NoneFound(line[1..]);
    }
  }

  /** One complete line at the front of the buffer. */
  lemma TakeLine(line: string, s: Stage)
    requires NoNewline(line)
    ensures Drained(s.(buffer := line + [NEWLINE] + s.buffer)) == Drained(Line(s, WithoutReturn(line)))
  {
    var rest := s.buffer;
    var buffer := line + [NEWLINE] + rest;
    NoneFound(line);
    FindNewlineAppend(line, [NEWLINE] + rest);
    assert line + ([NEWLINE] + rest) == buffer;
    assert buffer[..|line|] == line;
    assert buffer[|line| + 1..] == rest;
  }

  lemma EventLineTaken(event: string, rest: string, lines: seq<string>, events: seq<string>)
    requires NoNewline(event)
    ensures Drained(Stage(EventLine(event) + rest, lines, events)) == Drained(Stage(rest, lines, events))
  {
    if event == "" {
      assert "" + rest == rest;
    } else {
      var line := "event: " + event;
      TakeLine(line, Stage(rest, lines, events));
      assert WithoutReturn(line)[0] == 'e';
      assert DATA[0] == 'd';
    }
  }

  lemma DataLineKept(s: Stage, body: string)
    requires body == "" || Last(body) != '\r'
    ensures Line(s, WithoutReturn("data: " + body)) == s.(dataLines := s.dataLines + [body])
  {
    var line := "data: " + body;
    assert Last(line) == if body == "" then ' ' else Last(body);
    assert line[|DATA|..] == " " + body;
    assert (" " + body)[1..] == body;
  }

  lemma NoNewlineInBoth(a: string, b: string)
    requires NoNewline(a) && NoNewline(b)
    ensures NoNewline(a + b)
  {
  }

  lemma DataLineTaken(body: string, rest: string, events: seq<string>)
    requires NoNewline(body)
    requires body == "" || Last(body) != '\r'
    ensures Drained(Stage("data: " + body + [NEWLINE] + rest, [], events))
            == Drained(Stage(rest, [body], events))
  {
    NoNewlineInBoth("data: ", body);
    var s := Stage(rest, [], events);
    TakeLine("data: " + body, s);
    DataLineKept(s, body);
    assert s.(dataLines := s.dataLines + [body]) == Stage(rest, [body], events);
  }

  lemma EmptyLineTaken(body: string, rest: string, events: seq<string>)
    ensures Drained(Stage([NEWLINE] + rest, [body], events)) == Drained(Stage(rest, [], events + [body]))
  {
    TakeLine("", Stage(rest, [body], events));
    assert "" + [NEWLINE] + rest == [NEWLINE] + rest;
  }

  /** A frame at the front of the buffer comes out as its body. */
  lemma FrameTaken(f: Frame, rest: string, events: seq<string>)
    requires OneLine(f)
    ensures Drained(Stage(FrameText(f) + rest, [], events)) == Drained(Stage(rest, [], events + [f.body]))
  {
    EventLineTaken(f.event, "data: " + f.body + [NEWLINE] + ([NEWLINE] + rest), [], events);
    DataLineTaken(f.body, [NEWLINE] + rest, events);
    EmptyLineTaken(f.body, rest, events);
    Regroup(EventLine(f.event), "data: " + f.body, rest);
  }

  lemma Regroup(event: string, data: string, rest: string)
    ensures event + (data + [NEWLINE] + [NEWLINE]) + rest == event + (data + [NEWLINE] + ([NEWLINE] + rest))
  {
  }

  lemma {:induction false} FramesTaken(frames: seq<Frame>, events: seq<string>)
    requires AllOneLine(frames)
    ensures Drained(Stage(FrameTexts(frames), [], events)) == Stage("", [], events + Bodies(frames))
  {
    if frames == [] {
      assert events + [] == events;
    } else {
      var f, rest := frames[0], frames[1..];
      FrameTaken(f, FrameTexts(rest), events);
      FramesTaken(rest, events + [f.body]);
      RegroupBodies(events, [f.body], Bodies(rest));
    }
  }

  lemma RegroupBodies(a: seq<string>, b: seq<string>, c: seq<string>)
    ensures a + (b + c) == a + b + c
  {
  }

  /** Any sequence of frames, cut anywhere into chunks, comes back as exactly its bodies in
      order, with nothing left over and nothing to flush. */
  lemma FramesRoundTrip(frames: seq<Frame>, chunks: seq<string>)
    requires AllOneLine(frames)
    requires Concat(chunks) == FrameTexts(frames)
    ensures FedAll(START, chunks) == Dispatched(FedAll(START, chunks)) == Stage("", [], Bodies(frames))
  {
    ChunkIndependent(START, chunks);
    FramesTaken(frames, []);
    assert "" + FrameTexts(frames) == FrameTexts(frames);
    assert [] + Bodies(frames) == Bodies(frames);
  }

  // ----------------------------------------------------- frames of JSON bodies

  /** A frame of a printed payload. The frame's own writer keeps the members in the order they
      were written; the escaping, which is what keeps a body on one line, is the same. */
  function PrintedFrame(payload: Json, event: string): Frame {
    Frame(Canonical(payload), event)
  }

  function PrintedFrames(payloads: seq<Json>, event: string): seq<Frame> {
    if payloads == [] then [] else [PrintedFrame(payloads[0], event)] + PrintedFrames(payloads[1..], event)
  }

  lemma PrintedOneLine(payload: Json, event: string)
    requires NoNewline(event)
    ensures OneLine(PrintedFrame(payload, event))
  {
    CanonicalPrintable(payload);
  }

  lemma {:induction false} PrintedAllOneLine(payloads: seq<Json>, event: string)
    requires NoNewline(event)
    ensures AllOneLine(PrintedFrames(payloads, event))
    ensures Bodies(PrintedFrames(payloads, event)) == Texts(payloads)
  {
    if payloads != [] {
      PrintedOneLine(payloads[0], event);
      PrintedAllOneLine(payloads[1..], event);
      assert PrintedFrames(payloads, event)[1..] == PrintedFrames(payloads[1..], event);
    }
  }

  function Texts(payloads: seq<Json>): (r: seq<string>)
    ensures |r| == |payloads|
  {
    if payloads == [] then [] else [Canonical(payloads[0])] + Texts(payloads[1..])
  }

  lemma {:induction false} TextsParse(payloads: seq<Json>, i: nat)
    requires i < |payloads|
    ensures Parse(Texts(payloads)[i]) == Some(payloads[i])
  {
    if i == 0 {
      ParseCanonical(payloads[0]);
    } else {
      TextsParse(payloads[1..], i - 1);
    }
  }

  /** As many texts as payloads, each parsing to its own. */
  ghost predicate ParseTo(texts: seq<string>, payloads: seq<Json>) {
    |texts| == |payloads| && forall i :: 0 <= i < |payloads| ==> Parse(texts[i]) == Some(payloads[i])
  }

  lemma TextsParseTo(payloads: seq<Json>)
    ensures ParseTo(Texts(payloads), payloads)
  {
    forall i | 0 <= i < |payloads| ensures Parse(Texts(payloads)[i]) == Some(payloads[i]) {
      TextsParse(payloads, i);
    }
  }

  /** Any JSON payloads, whatever line breaks their strings hold, framed, concatenated and cut
      anywhere, come back as as many events, each parsing to its payload, with nothing left. */
  lemma PayloadsRoundTrip(payloads: seq<Json>, event: string, chunks: seq<string>)
    requires NoNewline(event)
    requires Concat(chunks) == FrameTexts(PrintedFrames(payloads, event))
    ensures FedAll(START, chunks) == Dispatched(FedAll(START, chunks))
    ensures FedAll(START, chunks) == Stage("", [], FedAll(START, chunks).events)
    ensures ParseTo(FedAll(START, chunks).events, payloads)
  {
    PrintedAllOneLine(payloads, event);
    FramesRoundTrip(PrintedFrames(payloads, event), chunks);
    TextsParseTo(payloads);
  }

  // ------------------------------------------------- lines of any kind

  /** A line as it is sent: no line break in it and no return at its end. */
  predicate Plain(line: string) {
    NoNewline(line) && (line == "" || line[|line| - 1] != '\r')
  }

  predicate AllPlain(lines: seq<string>) {
    forall i :: 0 <= i < |lines| ==> Plain(lines[i])
  }

  /** Lines with one ending each. */
  function Ended(lines: seq<string>, ending: string): string {
    if lines == [] then "" else lines[0] + ending + Ended(lines[1..], ending)
  }

  /** The value of a data field: what is behind the colon, but for one space. */
  function ValueOf(line: string): Option<string> {
    if |line| >= 6 && line[..6] == "data: " then Some(line[6..])
    else if |line| >= 5 && line[..5] == "data:" then Some(line[5..])
    else None
  }

  function DataOf(lines: seq<string>): seq<string> {
    if lines == [] then []
    else (if ValueOf(lines[0]).Some? then [ValueOf(lines[0]).value] else []) + DataOf(lines[1..])
  }

  /** Texts with a line break between each two. */
  function Broken(texts: seq<string>): string {
    if texts == [] then "" else if |texts| == 1 then texts[0] else texts[0] + "\n" + Broken(texts[1..])
  }

  lemma {:induction false} BrokenSnoc(texts: seq<string>, last: string)
    requires texts != []
    ensures Broken(texts + [last]) == Broken(texts) + "\n" + last
  {
    var all := texts + [last];
    assert all[1..] == texts[1..] + [last];
    if |texts| > 1 {
      BrokenSnoc(texts[1..], last);
      Reassociated(texts[0] + "\n", Broken(texts[1..]), "\n" + last);
    }
  }

  lemma Reassociated(a: string, b: string, c: string)
    ensures a + (b + c) == (a + b) + c
  {
  }

  lemma {:induction false} JoinIsBroken(lines: seq<string>)
    ensures JoinLines(lines) == Broken(lines)
  {
    if |lines| > 1 {
      JoinIsBroken(Init(lines));
      BrokenSnoc(Init(lines), Last(lines));
      assert lines == Init(lines) + [Last(lines)];
    }
  }

  /** A line that is not blank adds its value, if it is a data field, and does nothing else. */
  lemma {:induction false} LineIs(s: Stage, line: string)
    requires line != ""
    ensures Line(s, line) == s.(dataLines := s.dataLines + Value(line))
  {
    assert DATA == "data:" && |DATA| == 5;
    assert s.dataLines + [] == s.dataLines;
    if |line| >= 6 && line[..6] == "data: " {
      assert line[..5] == line[..6][..5] && line[5] == line[..6][5];
      assert line[5..][1..] == line[6..];
    } else if |line| >= 5 && line[..5] == "data:" {
      assert |line| >= 6 ==> line[..6] == line[..5] + [line[5]];
    }
  }

  predicate IsEnding(ending: string) {
    ending == "\n" || ending == "\r\n"
  }

  /** A line with its ending taken off the buffer, told as the line and a line break. */
  lemma {:induction false} EndingIs(line: string, ending: string, rest: string)
    requires Plain(line) && IsEnding(ending)
    ensures exists sent :: && NoNewline(sent) && WithoutReturn(sent) == line
                           && line + ending + rest == sent + [NEWLINE] + rest
  {
    if ending == "\n" {
      assert WithoutReturn(line) == line;
      assert ending == [NEWLINE];
    } else {
      var sent := line + "\r";
      NoNewlineInBoth(line, "\r");
      assert Init(sent) == line && Last(sent) == '\r';
      assert ending == "\r" + [NEWLINE];
      assert line + ending + rest == sent + [NEWLINE] + rest;
    }
  }

  /** One line at the front of the buffer, ended by a line break with or without a return. */
  lemma {:induction false} LineTaken(
      line: string, ending: string, rest: string, lines: seq<string>, events: seq<string>)
    requires Plain(line) && IsEnding(ending)
    ensures Drained(Stage(line + ending + rest, lines, events)) == Drained(Line(Stage(rest, lines, events), line))
  {
    EndingIs(line, ending, rest);
    var sent :| NoNewline(sent) && WithoutReturn(sent) == line && line + ending + rest == sent + [NEWLINE] + rest;
    var s := Stage(rest, lines, events);
    TakeLine(sent, s);
    assert s.(buffer := sent + [NEWLINE] + s.buffer) == Stage(line + ending + rest, lines, events);
  }

  /** The value of a line, if it has one. */
  function Value(line: string): seq<string> {
    if ValueOf(line).Some? then [ValueOf(line).value] else []
  }

  lemma {:induction false} FieldTaken(
      line: string, ending: string, rest: string, data: seq<string>, events: seq<string>)
    requires Plain(line) && line != "" && IsEnding(ending)
    ensures Drained(Stage(line + ending + rest, data, events)) == Drained(Stage(rest, data + Value(line), events))
  {
    LineTaken(line, ending, rest, data, events);
    LineIs(Stage(rest, data, events), line);
  }

  lemma {:induction false} BlankTaken(ending: string, rest: string, data: seq<string>, events: seq<string>)
    requires IsEnding(ending)
    ensures Drained(Stage(ending + rest, data, events))
            == Drained(Stage(rest, [], events + (if data == [] then [] else [Broken(data)])))
  {
    LineTaken("", ending, rest, data, events);
    assert "" + ending == ending;
    JoinIsBroken(data);
    assert events + [] == events;
  }

  lemma {:induction false} LinesTaken(
      lines: seq<string>, ending: string, rest: string, data: seq<string>, events: seq<string>)
    requires AllPlain(lines) && "" !in lines && IsEnding(ending)
    ensures Drained(Stage(Ended(lines, ending) + rest, data, events))
            == Drained(Stage(rest, data + DataOf(lines), events))
  {
    if lines == [] {
      assert "" + rest == rest && data + [] == data;
    } else {
      var more := Ended(lines[1..], ending) + rest;
      PlainTail(lines);
      FieldTaken(lines[0], ending, more, data, events);
      LinesTaken(lines[1..], ending, rest, data + Value(lines[0]), events);
      Grouped(lines[0], ending, Ended(lines[1..], ending), rest);
      DataCons(data, lines);
    }
  }

  lemma {:induction false} PlainTail(lines: seq<string>)
    requires lines != [] && AllPlain(lines) && "" !in lines
    ensures Plain(lines[0]) && lines[0] != "" && AllPlain(lines[1..]) && "" !in lines[1..]
  {
    assert lines[0] in lines;
  }

  lemma {:induction false} DataCons(data: seq<string>, lines: seq<string>)
    requires lines != []
    ensures (data + Value(lines[0])) + DataOf(lines[1..]) == data + DataOf(lines)
  {
    assert DataOf(lines) == Value(lines[0]) + DataOf(lines[1..]);
  }

  lemma Grouped(a: string, b: string, c: string, d: string)
    ensures (a + b + c) + d == a + b + (c + d)
  {
  }

  /** A block of lines up to a blank one, whatever the line endings, is one event: the values of
      its data fields with line breaks between them; or none when it has no data field. */
  lemma {:induction false} BlockGives(lines: seq<string>, ending: string, rest: string, events: seq<string>)
    requires AllPlain(lines) && "" !in lines && IsEnding(ending)
    ensures Drained(Stage(Ended(lines, ending) + (ending + rest), [], events))
            == Drained(Stage(rest, [], events + (if DataOf(lines) == [] then [] else [Broken(DataOf(lines))])))
  {
    LinesTaken(lines, ending, ending + rest, [], events);
    assert [] + DataOf(lines) == DataOf(lines);
    BlankTaken(ending, rest, DataOf(lines), events);
  }

  /** Without its blank line the last block is what the flush gives. */
  lemma {:induction false} TrailingGives(lines: seq<string>, ending: string)
    requires AllPlain(lines) && "" !in lines && IsEnding(ending)
    ensures Dispatched(Fed(START, Ended(lines, ending))).events
            == if DataOf(lines) == [] then [] else [Broken(DataOf(lines))]
  {
    LinesTaken(lines, ending, "", [], []);
    assert Ended(lines, ending) + "" == Ended(lines, ending) && "" + Ended(lines, ending) == Ended(lines, ending);
    assert [] + DataOf(lines) == DataOf(lines);
    JoinIsBroken(DataOf(lines));
  }

  /** A frame on the wire: its event's name if it has one, its data, and a blank line. */
  lemma {:induction false} FrameIs(f: Frame)
    ensures FrameText(f)
            == Ended((if f.event == "" then [] else ["event: " + f.event]) + ["data: " + f.body, ""], "\n")
  {
    var tail := ["data: " + f.body, ""];
    assert tail[1..] == [""] && [""][1..] == [];
    assert Ended(tail, "\n") == "data: " + f.body + "\n" + ("" + "\n" + "");
    if f.event != "" {
      assert (["event: " + f.event] + tail)[1..] == tail;
    } else {
      assert [] + tail == tail;
    }
  }
}
