/** What the two projections write for each record, from the record's own fields. */
module Rendering {
  import opened Values
  import opened Records
  import opened Reducer
  import opened CallHistory
  import opened Conversation
  import opened ThreadView

  // ------------------------------------------------------------------ texts

  /** What is read of a call that ended. */
  predicate Reads(p: Printer, b: Body, text: string)
    requires b.ToolCallFinished?
  {
    && (b.outcome == ToolOutcome.Ok ==>
          if b.resultHandle.Some?
          then text == p.elided(b.resultBytes, b.resultHandle.value, if b.preview.Some? then b.preview.value else "")
          else ReadsResult(p, b.result, text))
    && (b.outcome == ToolOutcome.Error ==> ReadsFailure(p, b.failure, text))
    && (b.outcome == ToolOutcome.Aborted ==> text == p.abortedGuidance)
    && (b.outcome == ToolOutcome.Unknown ==> text == p.unknownGuidance)
  }

  /** A text is read as it is, nothing as nothing, anything else as compact JSON. */
  predicate ReadsResult(p: Printer, result: Json, text: string) {
    && (result.Text? ==> text == result.s)
    && (result.Null? ==> text == "")
    && (!result.Text? && !result.Null? ==> text == p.compact(result))
  }

  /** A failure's message, and its traceback behind a blank line only when there is one that is
      for the model. */
  predicate ReadsFailure(p: Printer, failure: Option<ToolFailure>, text: string) {
    && (failure.None? ==> text == p.noFailureDetail)
    && (failure.Some? ==>
          var f := failure.value;
          if f.tracebackIsForTheModel && f.traceback.Some? && f.traceback.value != ""
          then text == f.message + "\n\n" + f.traceback.value
          else text == f.message)
  }

  lemma ResultReads(p: Printer, b: Body)
    requires b.ToolCallFinished?
    ensures Reads(p, b, ResultText(p, b))
  {
  }

  /** The white space of Python's `str.strip`, by code point. */
  lemma SpaceIs(c: char)
    ensures IsSpace(c) <==>
              c as int in {0x09, 0x0A, 0x0B, 0x0C, 0x0D, 0x1C, 0x1D, 0x1E, 0x1F, 0x20, 0x85, 0xA0, 0x1680,
                           0x2000, 0x2001, 0x2002, 0x2003, 0x2004, 0x2005, 0x2006, 0x2007, 0x2008, 0x2009, 0x200A,
                           0x2028, 0x2029, 0x202F, 0x205F, 0x3000}
  {
  }

  /** A key that holds a text with more than white space in it. */
  predicate Holds(fields: Dict, key: string) {
    key in fields && fields[key].Text? && exists i :: 0 <= i < |fields[key].s| && !IsSpace(fields[key].s[i])
  }

  /** What is said by an input: the message, or else the input, the text, the prompt, or else
      all of it as JSON, or nothing when it is empty. */
  predicate SaysInput(p: Printer, fields: Dict, text: string) {
    if Holds(fields, "message") then text == fields["message"].s
    else if Holds(fields, "input") then text == fields["input"].s
    else if Holds(fields, "text") then text == fields["text"].s
    else if Holds(fields, "prompt") then text == fields["prompt"].s
    else text == if fields == map[] then "" else p.dumps(Object(fields))
  }

  lemma {:induction false} TextUnderKeys(fields: Dict, key: string, more: seq<string>)
    ensures TextUnder(fields, [key] + more)
            == if Holds(fields, key) then Some(fields[key].s) else TextUnder(fields, more)
  {
    assert ([key] + more)[1..] == more;
  }

  lemma {:induction false} InputSays(p: Printer, fields: Dict)
    ensures SaysInput(p, fields, InputText(p, Object(fields)))
  {
    TextUnderKeys(fields, "message", ["input", "text", "prompt"]);
    TextUnderKeys(fields, "input", ["text", "prompt"]);
    TextUnderKeys(fields, "text", ["prompt"]);
    TextUnderKeys(fields, "prompt", []);
    assert ["message"] + ["input", "text", "prompt"] == TEXT_KEYS;
    assert ["input"] + ["text", "prompt"] == ["input", "text", "prompt"];
    assert ["text"] + ["prompt"] == ["text", "prompt"];
    assert ["prompt"] + [] == ["prompt"];
    assert |fields| == 0 <==> fields == map[];
  }

  /** What Python takes for false. */
  predicate Falsy(j: Json) {
    j == Null || j == Bool(false) || j == Int(0) || j == Text("") || j == List([]) || j == Object(map[])
  }

  /** A mapped step input says what an object would, or else itself as JSON unless it is falsy. */
  lemma {:induction false} StepInputSays(p: Printer, j: Json)
    ensures j.Object? ==> SaysInput(p, j.fields, InputText(p, j))
    ensures !j.Object? ==> InputText(p, j) == if Falsy(j) then "" else p.dumps(j)
  {
    if j.Object? {
      InputSays(p, j.fields);
    }
  }

  /** What a child's end says: its head line, then its failure or else what it put out. */
  predicate SaysEnded(p: Printer, b: Body, text: string)
    requires b.SubagentFinished?
  {
    var head := p.childHead(b.name, b.child, b.terminal);
    if b.failure.Some? then text == head + "\n\n" + b.failure.value.message
    else if b.output.Some? && b.output.value != map[] && p.compact(Object(b.output.value)) != ""
    then text == head + "\n\n" + p.compact(Object(b.output.value))
    else text == head
  }

  lemma ChildSays(p: Printer, b: Body)
    requires b.SubagentFinished?
    ensures SaysEnded(p, b, ChildFinishedText(p, b))
  {
    if b.output.Some? {
      assert |b.output.value| == 0 <==> b.output.value == map[];
    }
  }

  /** Texts in order with a blank line between each two. */
  function Paragraphs(texts: seq<string>): string {
    if texts == [] then "" else if |texts| == 1 then texts[0] else texts[0] + "\n\n" + Paragraphs(texts[1..])
  }

  lemma {:induction false} ParagraphsSnoc(texts: seq<string>, last: string)
    requires texts != []
    ensures Paragraphs(texts + [last]) == Paragraphs(texts) + "\n\n" + last
  {
    var all := texts + [last];
    assert all[1..] == texts[1..] + [last];
    if |texts| > 1 {
      ParagraphsSnoc(texts[1..], last);
      Regroup(texts[0] + "\n\n", Paragraphs(texts[1..]), "\n\n" + last);
    }
  }

  lemma Regroup(a: string, b: string, c: string)
    ensures a + (b + c) == (a + b) + c
  {
  }

  function Summaries(applied: seq<Record>): (texts: seq<string>)
    requires forall i :: 0 <= i < |applied| ==> applied[i].body.CompactionApplied?
  {
    seq(|applied|, i requires 0 <= i < |applied| => applied[i].body.summary)
  }

  lemma {:induction false} JoinedIs(applied: seq<Record>)
    requires forall i :: 0 <= i < |applied| ==> applied[i].body.CompactionApplied?
    ensures Joined(applied) == Paragraphs(Summaries(applied))
  {
    if |applied| > 1 {
      JoinedIs(Init(applied));
      assert Summaries(applied) == Summaries(Init(applied)) + [Last(applied).body.summary];
      ParagraphsSnoc(Summaries(Init(applied)), Last(applied).body.summary);
    }
  }

  /** The summary a compacted conversation starts with: every summary in order, blank lines
      between them, behind the lead. */
  lemma {:induction false} SummarySays(p: Printer, log: seq<Record>)
    ensures forall i :: 0 <= i < |Compactions(log)| ==> Compactions(log)[i].body.CompactionApplied?
    ensures SummaryText(p, log) == p.summaryLead + Paragraphs(Summaries(Compactions(log)))
    ensures SummaryMessage(p, log) == if Compactions(log) == [] then [] else [User(SummaryText(p, log))]
  {
    CompactionsOnly(log);
    JoinedIs(Compactions(log));
  }

  /** The boundary is the highest sequence any compaction replaced, 0 without one. */
  lemma {:induction false} BoundaryIs(log: seq<Record>)
    ensures forall i :: 0 <= i < |log| && log[i].body.CompactionApplied? ==> log[i].body.replacedToSeq <= Boundary(log)
    ensures Boundary(log) > 0 ==>
              exists i :: 0 <= i < |log| && log[i].body.CompactionApplied? && log[i].body.replacedToSeq == Boundary(log)
  {
    if log != [] {
      BoundaryIs(Init(log));
      forall i | 0 <= i < |Init(log)| ensures Init(log)[i] == log[i] {
      }
      if Boundary(log) > 0 {
        if Boundary(log) == Boundary(Init(log)) {
          var i :| 0 <= i < |Init(log)| && Init(log)[i].body.CompactionApplied?
                   && Init(log)[i].body.replacedToSeq == Boundary(log);
          assert log[i].body.replacedToSeq == Boundary(log);
        } else {
          assert log[|log| - 1].body.replacedToSeq == Boundary(log);
        }
      }
    }
  }

  // --------------------------------------------------------------- messages

  predicate Started(log: seq<Record>, id: CallId) {
    StartOf(log, id).Some? && StartOf(log, id).value.body.ToolCallStarted?
  }

  /** The calls of an assistant's message: the ids it listed in order, each with the tool and
      the arguments it was started with, or as an unknown one. */
  predicate CallsFit(log: seq<Record>, ids: seq<CallId>, calls: seq<ToolCall>) {
    && |calls| == |ids|
    && forall n :: 0 <= n < |ids| ==>
         && calls[n].id == ids[n]
         && (Started(log, ids[n]) ==>
               calls[n].name == StartOf(log, ids[n]).value.body.tool
               && calls[n].arguments == StartOf(log, ids[n]).value.body.arguments)
         && (!Started(log, ids[n]) ==> calls[n].name == "unknown" && calls[n].arguments == map[])
  }

  predicate Said(messages: seq<Message>, text: string) {
    if text == "" then messages == [] else messages == [User(text)]
  }

  /** The messages of one record above the boundary. */
  ghost predicate MessagesFit(p: Printer, log: seq<Record>, boundary: nat, i: nat, messages: seq<Message>)
    requires i < |log|
  {
    var b := log[i].body;
    && (b.RunAdmitted? ==> exists text :: SaysInput(p, b.input, text) && Said(messages, text))
    && (b.StepStarted? ==>
          if b.kind == "agent" && "input" in b.input then StepInputFits(p, b.input["input"], messages)
          else messages == [])
    && (b.QueueConsumed? ==> PayloadFits(p, log, b.entryId, messages))
    && (b.ModelCallFinished? ==>
          if b.text == "" && b.toolCalls == [] then messages == []
          else |messages| == 1 && messages[0].Assistant? && messages[0].content == b.text
               && CallsFit(log, b.toolCalls, messages[0].toolCalls))
    && (b.SubagentFinished? ==> |messages| == 1 && messages[0].User? && SaysEnded(p, b, messages[0].content))
    && (b.ToolCallFinished? ==> AnswerFits(p, log, boundary, b, messages))
    && (Silent(b) ==> messages == [])
  }

  /** The kinds of record that are neither sent nor shown. */
  predicate Silent(b: Body) {
    && !b.RunAdmitted? && !b.StepStarted? && !b.QueueConsumed?
    && !b.ModelCallFinished? && !b.SubagentFinished? && !b.ToolCallFinished?
  }

  ghost predicate StepInputFits(p: Printer, j: Json, messages: seq<Message>) {
    if j.Object? then exists text :: SaysInput(p, j.fields, text) && Said(messages, text)
    else Said(messages, if Falsy(j) then "" else p.dumps(j))
  }

  /** What was enqueued under the id is said where it is consumed. */
  ghost predicate PayloadFits(p: Printer, log: seq<Record>, id: string, messages: seq<Message>) {
    exists j, text ::
      && 0 <= j < |log| && log[j].body.QueueEnqueued? && log[j].body.entryId == id
      && SaysInput(p, log[j].body.payload, text) && Said(messages, text)
  }

  /** The answer to a call; none to a program-made one that started above the boundary. */
  predicate AnswerFits(p: Printer, log: seq<Record>, boundary: nat, b: Body, messages: seq<Message>)
    requires b.ToolCallFinished?
  {
    var above := Started(log, b.callId) && StartOf(log, b.callId).value.seqNo > boundary;
    if above && StartOf(log, b.callId).value.body.parentCallId.Some? then messages == []
    else
      && |messages| == 1 && messages[0].ToolAnswer? && messages[0].callId == b.callId
      && messages[0].name == (if above then StartOf(log, b.callId).value.body.tool else "unknown")
      && Reads(p, b, messages[0].content)
      && (messages[0].isError <==> b.outcome != ToolOutcome.Ok)
  }

  lemma {:induction false} CallsListed(runId: RunId, scope: Scope, log: seq<Record>, ids: seq<CallId>)
    requires Accepts(Fresh(runId, scope), log)
    ensures CallsFit(log, ids, ToolCallsOf(log, ids))
  {
    forall n | 0 <= n < |ids| ensures FirstStart(log, ids[n]) == StartOf(log, ids[n]) {
      OneStart(runId, scope, log, ids[n]);
    }
    forall n | 0 <= n < |ids| ensures StartOf(log, ids[n]).Some? ==> StartOf(log, ids[n]).value.body.ToolCallStarted? {
      StartOfIs(log, ids[n]);
    }
  }

  /** A consumed entry was enqueued, and that record is the one the lookup finds. */
  lemma {:induction false} ConsumedWasEnqueued(runId: RunId, scope: Scope, log: seq<Record>, i: nat)
    requires Accepts(Fresh(runId, scope), log) && i < |log| && log[i].body.QueueConsumed?
    ensures FirstEnqueue(log, log[i].body.entryId).Some?
  {
    AcceptsPrefix(Fresh(runId, scope), log, i + 1);
    assert Init(log[..i + 1]) == log[..i] && Last(log[..i + 1]) == log[i];
    RunSnoc(Fresh(runId, scope), log[..i + 1]);
    ConsumeChecked(After(Fresh(runId, scope), log[..i]), log[i]);
    OneEnqueue(runId, scope, log[..i], log[i].body.entryId);
    FirstEnqueueKept(log, i, log[i].body.entryId);
  }

  lemma ConsumeChecked(f: Fold, r: Record)
    requires Check(f, r).None? && r.body.QueueConsumed?
    ensures r.body.entryId in f.locals.enqueued
  {
  }

  lemma {:induction false} FirstEnqueueKept(log: seq<Record>, n: nat, id: string)
    requires n <= |log| && FirstEnqueue(log[..n], id).Some?
    ensures FirstEnqueue(log, id).Some?
  {
    if n > 0 && !(log[0].body.QueueEnqueued? && log[0].body.entryId == id) {
      assert log[..n][1..] == log[1..][..n - 1];
      FirstEnqueueKept(log[1..], n - 1, id);
    }
  }

  lemma {:induction false} FirstEnqueueIs(log: seq<Record>, id: string)
    requires FirstEnqueue(log, id).Some?
    ensures exists j :: 0 <= j < |log| && log[j] == FirstEnqueue(log, id).value
                        && log[j].body.QueueEnqueued? && log[j].body.entryId == id
  {
    if log[0].body.QueueEnqueued? && log[0].body.entryId == id {
      assert log[0] == FirstEnqueue(log, id).value;
    } else {
      FirstEnqueueIs(log[1..], id);
      var j :| 0 <= j < |log[1..]| && log[1..][j] == FirstEnqueue(log, id).value
               && log[1..][j].body.QueueEnqueued? && log[1..][j].body.entryId == id;
      assert log[j + 1] == log[1..][j];
    }
  }

  lemma {:induction false} PayloadSaid(p: Printer, runId: RunId, scope: Scope, log: seq<Record>, i: nat)
    requires Accepts(Fresh(runId, scope), log) && i < |log| && log[i].body.QueueConsumed?
    ensures PayloadFits(p, log, log[i].body.entryId, AsText(QueuePayload(p, log, log[i].body.entryId)))
  {
    var id := log[i].body.entryId;
    ConsumedWasEnqueued(runId, scope, log, i);
    FirstEnqueueIs(log, id);
    var j :| 0 <= j < |log| && log[j] == FirstEnqueue(log, id).value
             && log[j].body.QueueEnqueued? && log[j].body.entryId == id;
    InputSays(p, log[j].body.payload);
    assert Said(AsText(QueuePayload(p, log, id)), QueuePayload(p, log, id));
  }

  lemma {:induction false} AnswerSaid(p: Printer, runId: RunId, scope: Scope, log: seq<Record>, boundary: nat, i: nat)
    requires Accepts(Fresh(runId, scope), log) && i < |log| && log[i].body.ToolCallFinished? && log[i].seqNo > boundary
    ensures AnswerFits(p, log, boundary, log[i].body, MessagesAt(p, log, boundary, i))
  {
    var b := log[i].body;
    AcceptedFindsStart(runId, scope, log, boundary, i);
    StartOfIs(log, b.callId);
    StartAboveIs(log[..i], boundary, b.callId);
    ResultReads(p, b);
  }

  /** What the model is sent of each record of an accepted log: nothing at or below the boundary,
      and above it what the record's fields and the records it refers to say. */
  lemma {:induction false} MessagesAre(p: Printer, runId: RunId, scope: Scope, log: seq<Record>, boundary: nat, i: nat)
    requires Accepts(Fresh(runId, scope), log) && i < |log|
    ensures log[i].seqNo <= boundary ==> MessagesAt(p, log, boundary, i) == []
    ensures log[i].seqNo > boundary ==> MessagesFit(p, log, boundary, i, MessagesAt(p, log, boundary, i))
  {
    var b := log[i].body;
    if log[i].seqNo > boundary {
      if b.RunAdmitted? {
        InputSays(p, b.input);
      } else if b.StepStarted? {
        StepInputSaid(p, log, boundary, i);
      } else if b.QueueConsumed? {
        PayloadSaid(p, runId, scope, log, i);
      } else if b.ModelCallFinished? {
        CallsListed(runId, scope, log, b.toolCalls);
      } else if b.SubagentFinished? {
        ChildSays(p, b);
      } else if b.ToolCallFinished? {
        AnswerSaid(p, runId, scope, log, boundary, i);
      }
    }
  }

  lemma {:induction false} StepInputSaid(p: Printer, log: seq<Record>, boundary: nat, i: nat)
    requires i < |log| && log[i].body.StepStarted? && log[i].seqNo > boundary
    ensures MessagesFit(p, log, boundary, i, MessagesAt(p, log, boundary, i))
  {
    var b := log[i].body;
    if b.kind == "agent" && "input" in b.input {
      StepInputSays(p, b.input["input"]);
    }
  }

  // ------------------------------------------------------------------- rows

  /** `dict` of a mapped input: an object is itself, an empty text or list is empty, and anything
      else raises. */
  lemma DictIs(j: Json)
    ensures j.Object? ==> AsDict(j) == Some(j.fields)
    ensures j == Text("") || j == List([]) ==> AsDict(j) == Some(map[])
    ensures !j.Object? && j != Text("") && j != List([]) ==> AsDict(j).None?
  {
  }

  predicate RowSaid(rows: seq<MessageView>, text: string, runId: RunId, r: Record) {
    if text == "" then rows == [] else OneRow(rows, AsUser, runId, r) && rows[0].content == text
  }

  /** One row of the role, placed and dated by its record, with nothing about a tool. */
  predicate OneRow(rows: seq<MessageView>, role: Role, runId: RunId, r: Record) {
    && |rows| == 1 && rows[0].role == role && rows[0].runId == runId && rows[0].seqNo == r.seqNo && rows[0].at == r.at
    && (role != AsTool ==> rows[0].toolName == None && rows[0].toolCallId == None && !rows[0].isError)
  }

  /** The rows of one record above the boundary. */
  ghost predicate RowsFit(p: Printer, log: seq<Record>, runId: RunId, i: nat, rows: seq<MessageView>)
    requires i < |log|
  {
    var r, b := log[i], log[i].body;
    && (b.RunAdmitted? ==> exists text :: SaysInput(p, b.input, text) && RowSaid(rows, text, runId, r))
    && (b.StepStarted? ==>
          if b.kind == "agent" && "input" in b.input then
            AsDict(b.input["input"]).Some?
            && exists text :: SaysInput(p, AsDict(b.input["input"]).value, text) && RowSaid(rows, text, runId, r)
          else rows == [])
    && (b.QueueConsumed? ==> RowPayloadFits(p, log, b.entryId, rows, runId, r))
    && (b.ModelCallFinished? ==>
          if b.text == "" && b.toolCalls == [] then rows == []
          else OneRow(rows, AsAssistant, runId, r) && rows[0].content == b.text)
    && (b.SubagentFinished? ==> OneRow(rows, AsUser, runId, r) && SaysEnded(p, b, rows[0].content))
    && (b.ToolCallFinished? ==>
          && OneRow(rows, AsTool, runId, r) && Reads(p, b, rows[0].content)
          && rows[0].toolName
             == Some(if Started(log, b.callId) then StartOf(log, b.callId).value.body.tool else "unknown")
          && rows[0].toolCallId == Some(b.callId) && (rows[0].isError <==> b.outcome != ToolOutcome.Ok))
    && (Silent(b) ==> rows == [])
  }

  ghost predicate RowPayloadFits(
      p: Printer, log: seq<Record>, id: string, rows: seq<MessageView>, runId: RunId, r: Record)
  {
    exists j, text ::
      && 0 <= j < |log| && log[j].body.QueueEnqueued? && log[j].body.entryId == id
      && SaysInput(p, log[j].body.payload, text) && RowSaid(rows, text, runId, r)
  }

  lemma {:induction false} RowPayloadSaid(
      p: Printer, runId: RunId, scope: Scope, log: seq<Record>, i: nat, shown: RunId)
    requires Accepts(Fresh(runId, scope), log) && i < |log| && log[i].body.QueueConsumed?
    ensures RowPayloadFits(p, log, log[i].body.entryId,
                           AsRow(InputText(p, Object(Queued(log, log[i].body.entryId))), shown, log[i]), shown, log[i])
  {
    var id := log[i].body.entryId;
    ConsumedWasEnqueued(runId, scope, log, i);
    OneEnqueue(runId, scope, log, id);
    FirstEnqueueIs(log, id);
    var j :| 0 <= j < |log| && log[j] == FirstEnqueue(log, id).value
             && log[j].body.QueueEnqueued? && log[j].body.entryId == id;
    InputSays(p, log[j].body.payload);
    assert RowSaid(AsRow(InputText(p, Object(Queued(log, id))), shown, log[i]), InputText(p, Object(Queued(log, id))),
                   shown, log[i]);
  }

  /** What a person is shown of each record of an accepted log that does not raise. */
  lemma {:induction false} RowsAre(
      p: Printer, runId: RunId, scope: Scope, log: seq<Record>, shown: RunId, boundary: nat, i: nat)
    requires Accepts(Fresh(runId, scope), log) && i < |log| && !Raises(log[i], boundary)
    ensures log[i].seqNo <= boundary ==> ViewsAt(p, log, shown, boundary, i) == []
    ensures log[i].seqNo > boundary ==> RowsFit(p, log, shown, i, ViewsAt(p, log, shown, boundary, i))
  {
    var r, b := log[i], log[i].body;
    if r.seqNo > boundary {
      if b.RunAdmitted? {
        InputSays(p, b.input);
        assert RowSaid(ViewsAt(p, log, shown, boundary, i), InputText(p, Object(b.input)), shown, r);
      } else if b.StepStarted? {
        StepRowSaid(p, log, shown, boundary, i);
      } else if b.QueueConsumed? {
        RowPayloadSaid(p, runId, scope, log, i, shown);
      } else if b.SubagentFinished? {
        ChildSays(p, b);
      } else if b.ToolCallFinished? {
        ToolRowSaid(p, runId, scope, log, shown, boundary, i);
      }
    }
  }

  lemma {:induction false} StepRowSaid(p: Printer, log: seq<Record>, shown: RunId, boundary: nat, i: nat)
    requires i < |log| && log[i].body.StepStarted? && !Raises(log[i], boundary) && log[i].seqNo > boundary
    ensures RowsFit(p, log, shown, i, ViewsAt(p, log, shown, boundary, i))
  {
    var b := log[i].body;
    if b.kind == "agent" && "input" in b.input {
      var fields := AsDict(b.input["input"]).value;
      InputSays(p, fields);
      assert RowSaid(ViewsAt(p, log, shown, boundary, i), InputText(p, Object(fields)), shown, log[i]);
    }
  }

  lemma {:induction false} ToolRowSaid(
      p: Printer, runId: RunId, scope: Scope, log: seq<Record>, shown: RunId, boundary: nat, i: nat)
    requires Accepts(Fresh(runId, scope), log) && i < |log|
    requires log[i].body.ToolCallFinished? && log[i].seqNo > boundary
    ensures RowsFit(p, log, shown, i, ViewsAt(p, log, shown, boundary, i))
  {
    var b := log[i].body;
    OneStart(runId, scope, log, b.callId);
    StartOfIs(log, b.callId);
    ResultReads(p, b);
  }

  /** The row of the summaries: before all others, placed and dated at the last compaction. */
  lemma {:induction false} SummaryRowIs(p: Printer, log: seq<Record>, shown: RunId)
    ensures Compactions(log) == [] ==> SummaryRow(p, log, shown) == []
    ensures Compactions(log) != [] ==>
              OneRow(SummaryRow(p, log, shown), AsUser, shown, Last(Compactions(log)))
              && SummaryRow(p, log, shown)[0].content == SummaryText(p, log)
  {
  }

  /** Every row is under the Run of the log's first record. */
  lemma {:induction false} RowsOfRun(p: Printer, all: seq<Record>, runId: RunId, boundary: nat, n: nat)
    requires n <= |all| && Viewed(p, all, runId, boundary, n).Some?
    ensures forall k :: 0 <= k < |Viewed(p, all, runId, boundary, n).value| ==>
              Viewed(p, all, runId, boundary, n).value[k].runId == runId
  {
    if n > 0 {
      RowsOfRun(p, all, runId, boundary, n - 1);
      var rows := ViewsAt(p, all, runId, boundary, n - 1);
      assert forall k :: 0 <= k < |rows| ==> rows[k].runId == runId;
    }
  }

  lemma {:induction false} ViewsOfRun(p: Printer, log: seq<Record>)
    requires ViewsOf(p, log).Some?
    ensures log == [] ==> ViewsOf(p, log).value == []
    ensures forall k :: 0 <= k < |ViewsOf(p, log).value| ==> log != [] && ViewsOf(p, log).value[k].runId == log[0].runId
  {
    if log != [] {
      RowsOfRun(p, log, log[0].runId, Boundary(log), |log|);
      SummaryRowIs(p, log, log[0].runId);
    }
  }
}
