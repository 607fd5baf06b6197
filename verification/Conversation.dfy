/** The two projections of a log into a conversation: what the model is sent, and what a
    person is shown. Each is a loop over the records; the functions say what they emit. */
module Conversation {
  import opened Values
  import opened Records

  datatype ToolCall = ToolCall(id: CallId, name: string, arguments: Dict)

  datatype Message =
    | User(content: string)
    | Assistant(content: string, toolCalls: seq<ToolCall>)
    | ToolAnswer(callId: CallId, name: string, content: string, isError: bool)

  datatype Role = AsUser | AsAssistant | AsTool

  datatype MessageView = MessageView(
    role: Role, content: string, runId: RunId, seqNo: nat, at: int, toolName: Option<string>,
    toolCallId: Option<CallId>, isError: bool)

  /** The prose and the JSON text both projections share: `json.dumps` spaced and compact, the
      text standing in for an elided result, the line announcing a finished subagent, what a
      summary starts with, and what a call without a result of its own is answered with. */
  datatype Printer = Printer(
    dumps: Json -> string, compact: Json -> string, elided: (nat, string, string) -> string,
    childHead: (string, RunId, TerminalState) -> string, summaryLead: string, abortedGuidance: string,
    unknownGuidance: string, noFailureDetail: string)

  const UNKNOWN_TOOL := "unknown"
  const BLANK_LINE := "\n\n"
  const AGENT := "agent"
  const INPUT := "input"
  const TEXT_KEYS := ["message", "input", "text", "prompt"]

  // -------------------------------------------------------------------- text

  /** Characters `str.strip` removes. */
  predicate IsSpace(c: char) {
    || '\t' <= c <= '\r' || '\U{1c}' <= c <= ' ' || c == '\U{85}' || c == '\U{a0}'
    || c == '\U{1680}' || '\U{2000}' <= c <= '\U{200a}' || c == '\U{2028}' || c == '\U{2029}'
    || c == '\U{202f}' || c == '\U{205f}' || c == '\U{3000}'
  }

  predicate Blank(s: string) {
    forall i :: 0 <= i < |s| ==> IsSpace(s[i])
  }

  /** Python's truth value of a JSON value. */
  predicate Truthy(j: Json) {
    match j
    case Null => false
    case Bool(b) => b
    case Int(n) => n != 0
    case Text(s) => s != ""
    case List(items) => items != []
    case Object(fields) => |fields| > 0
  }

  /** The first of the text keys that holds a string that is not blank. */
  function TextUnder(fields: Dict, keys: seq<string>): Option<string> {
    if keys == [] then None
    else if keys[0] in fields && fields[keys[0]].Text? && !Blank(fields[keys[0]].s)
    then Some(fields[keys[0]].s)
    else TextUnder(fields, keys[1..])
  }

  /** `_input_text` */
  function InputText(p: Printer, payload: Json): string {
    if !payload.Object? then (if Truthy(payload) then p.dumps(payload) else "")
    else
      var text := TextUnder(payload.fields, TEXT_KEYS);
      if text.Some? then text.value
      else if |payload.fields| == 0 then ""
      else p.dumps(payload)
  }

  /** `_stringify` */
  function Stringify(p: Printer, result: Json): string {
    if result.Null? then "" else if result.Text? then result.s else p.compact(result)
  }

  /** `_failure_text` */
  function FailureText(p: Printer, failure: Option<ToolFailure>): string {
    if failure.None? then p.noFailureDetail
    else
      var f := failure.value;
      if f.traceback.Some? && f.traceback.value != "" && f.tracebackIsForTheModel
      then f.message + BLANK_LINE + f.traceback.value else f.message
  }

  /** `_result_text` */
  function ResultText(p: Printer, b: Body): string
    requires b.ToolCallFinished?
  {
    match b.outcome
    case Aborted => p.abortedGuidance
    case Unknown => p.unknownGuidance
    case Error => FailureText(p, b.failure)
    case Ok =>
      if b.resultHandle.Some?
      then p.elided(b.resultBytes, b.resultHandle.value, if b.preview.Some? then b.preview.value else "")
      else Stringify(p, b.result)
  }

  /** `child_finished_text` */
  function ChildFinishedText(p: Printer, b: Body): string
    requires b.SubagentFinished?
  {
    var head := p.childHead(b.name, b.child, b.terminal);
    if b.failure.Some? then head + BLANK_LINE + b.failure.value.message
    else
      var body := if b.output.Some? && |b.output.value| > 0 then Stringify(p, Object(b.output.value)) else "";
      if body == "" then head else head + BLANK_LINE + body
  }

  // ----------------------------------------------------------------- lookups

  /** `_compaction`: the highest compacted sequence. */
  function Boundary(log: seq<Record>): nat {
    if log == [] then 0
    else
      var b, earlier := Last(log).body, Boundary(Init(log));
      if b.CompactionApplied? && b.replacedToSeq > earlier then b.replacedToSeq else earlier
  }

  /** `_compaction`: every compaction, in order. */
  function Compactions(log: seq<Record>): seq<Record> {
    if log == [] then []
    else if Last(log).body.CompactionApplied? then Compactions(Init(log)) + [Last(log)]
    else Compactions(Init(log))
  }

  function Joined(applied: seq<Record>): string
    requires forall i :: 0 <= i < |applied| ==> applied[i].body.CompactionApplied?
  {
    if applied == [] then ""
    else if |applied| == 1 then applied[0].body.summary
    else Joined(Init(applied)) + BLANK_LINE + Last(applied).body.summary
  }

  /** `_queue_payload` looks for the first enqueue of an id. */
  function FirstEnqueue(log: seq<Record>, id: string): Option<Record> {
    if log == [] then None
    else if log[0].body.QueueEnqueued? && log[0].body.entryId == id then Some(log[0])
    else FirstEnqueue(log[1..], id)
  }

  /** A dictionary over the enqueues keeps the last of an id. */
  function LastEnqueue(log: seq<Record>, id: string): Option<Record> {
    if log == [] then None
    else if Last(log).body.QueueEnqueued? && Last(log).body.entryId == id then Some(Last(log))
    else LastEnqueue(Init(log), id)
  }

  /** `_tool_name` and `_tool_arguments` look for the first start of an id. */
  function FirstStart(log: seq<Record>, id: CallId): Option<Record> {
    if log == [] then None
    else if log[0].body.ToolCallStarted? && log[0].body.callId == id then Some(log[0])
    else FirstStart(log[1..], id)
  }

  function ToolName(log: seq<Record>, id: CallId): string {
    var start := FirstStart(log, id);
    if start.Some? && start.value.body.ToolCallStarted? then start.value.body.tool else UNKNOWN_TOOL
  }

  function ToolArguments(log: seq<Record>, id: CallId): Dict {
    var start := FirstStart(log, id);
    if start.Some? && start.value.body.ToolCallStarted? then start.value.body.arguments else map[]
  }

  /** What the `calls` dictionary of `build_conversation` holds for an id: the latest start that
      is above the boundary. */
  function StartAbove(log: seq<Record>, boundary: nat, id: CallId): Option<Record> {
    if log == [] then None
    else if Last(log).seqNo > boundary && Last(log).body.ToolCallStarted? && Last(log).body.callId == id
    then Some(Last(log))
    else StartAbove(Init(log), boundary, id)
  }

  // ------------------------------------------------------ what the model sees

  function AsText(text: string): seq<Message> {
    if text == "" then [] else [User(text)]
  }

  /** `_tool_result`: nothing for a call a program made. */
  function ToolAnswerOf(p: Printer, b: Body, started: Option<Record>): seq<Message>
    requires b.ToolCallFinished?
    requires started.Some? ==> started.value.body.ToolCallStarted?
  {
    if started.Some? && started.value.body.parentCallId.Some? then []
    else [ToolAnswer(b.callId, if started.Some? then started.value.body.tool else UNKNOWN_TOOL,
                     ResultText(p, b), b.outcome != ToolOutcome.Ok)]
  }

  function QueuePayload(p: Printer, log: seq<Record>, id: string): string {
    var entry := FirstEnqueue(log, id);
    if entry.Some? && entry.value.body.QueueEnqueued? then InputText(p, Object(entry.value.body.payload)) else ""
  }

  function ToolCallsOf(all: seq<Record>, ids: seq<CallId>): seq<ToolCall> {
    seq(|ids|, i requires 0 <= i < |ids| => ToolCall(ids[i], ToolName(all, ids[i]), ToolArguments(all, ids[i])))
  }

  /** The messages the record at index `i` puts into the conversation. */
  function MessagesAt(p: Printer, all: seq<Record>, boundary: nat, i: nat): seq<Message>
    requires i < |all|
  {
    var r, b := all[i], all[i].body;
    if r.seqNo <= boundary then []
    else if b.RunAdmitted? then AsText(InputText(p, Object(b.input)))
    else if b.StepStarted? && b.kind == AGENT && INPUT in b.input then AsText(InputText(p, b.input[INPUT]))
    else if b.QueueConsumed? then AsText(QueuePayload(p, all, b.entryId))
    else if b.ModelCallFinished? && (b.text != "" || b.toolCalls != [])
    then [Assistant(b.text, ToolCallsOf(all, b.toolCalls))]
    else if b.SubagentFinished? then [User(ChildFinishedText(p, b))]
    else if b.ToolCallFinished? then (StartAboveIs(all[..i], boundary, b.callId);
                                      ToolAnswerOf(p, b, StartAbove(all[..i], boundary, b.callId)))
    else []
  }

  lemma {:induction false} StartAboveIs(log: seq<Record>, boundary: nat, id: CallId)
    ensures var start := StartAbove(log, boundary, id);
            start.Some? ==> start.value.body.ToolCallStarted? && start.value.body.callId == id
                            && start.value.seqNo > boundary && start.value in log
  {
    if log != [] {
      StartAboveIs(Init(log), boundary, id);
    }
  }

  /** The messages of the first `n` records. */
  function Emitted(p: Printer, all: seq<Record>, boundary: nat, n: nat): seq<Message>
    requires n <= |all|
  {
    if n == 0 then [] else Emitted(p, all, boundary, n - 1) + MessagesAt(p, all, boundary, n - 1)
  }

  lemma {:induction false} CompactionsOnly(log: seq<Record>)
    ensures forall i :: 0 <= i < |Compactions(log)| ==> Compactions(log)[i].body.CompactionApplied?
  {
    if log != [] {
      CompactionsOnly(Init(log));
    }
  }

  function SummaryText(p: Printer, log: seq<Record>): string {
    CompactionsOnly(log);
    p.summaryLead + Joined(Compactions(log))
  }

  /** The one message standing in for everything compacted. */
  function SummaryMessage(p: Printer, log: seq<Record>): seq<Message> {
    if Compactions(log) == [] then [] else [User(SummaryText(p, log))]
  }

  /** What `build_conversation` returns. */
  function ConversationOf(p: Printer, log: seq<Record>): seq<Message> {
    SummaryMessage(p, log) + Emitted(p, log, Boundary(log), |log|)
  }

  /** What the `calls` dictionary of the loop stands for after `n` records. */
  ghost predicate CallsBelow(calls: map<CallId, Record>, all: seq<Record>, boundary: nat, n: nat)
    requires n <= |all|
  {
    && (forall id :: id in calls ==> calls[id].body.ToolCallStarted?)
    && forall id :: StartAbove(all[..n], boundary, id) == if id in calls then Some(calls[id]) else None
  }

  /** `build_conversation` */
  method BuildConversation(p: Printer, records: seq<Record>) returns (messages: seq<Message>)
    ensures messages == ConversationOf(p, records)
  {
    var boundary, applied := CompactionLoop(records);
    CompactionsOnly(records);
    messages := [];
    if applied != [] {
      messages := messages + [User(p.summaryLead + Joined(applied))];
    }
    messages := EmitAll(p, records, boundary, messages);
  }

  /** The loop of `build_conversation`. */
  method EmitAll(p: Printer, records: seq<Record>, boundary: nat, lead: seq<Message>)
    returns (messages: seq<Message>)
    ensures messages == lead + Emitted(p, records, boundary, |records|)
  {
    messages := lead;
    var calls: map<CallId, Record> := map[];
    for i := 0 to |records|
      invariant messages == lead + Emitted(p, records, boundary, i)
      invariant CallsBelow(calls, records, boundary, i)
    {
      CallsBelowNext(calls, records, boundary, i);
      EmittedNext(p, records, boundary, i, lead);
      if records[i].seqNo > boundary {
        var emitted := EmitOne(p, records, boundary, i, calls);
        messages := messages + emitted;
        if records[i].body.ToolCallStarted? {
          calls := calls[records[i].body.callId := records[i]];
        }
      }
    }
  }

  lemma EmittedNext(p: Printer, all: seq<Record>, boundary: nat, i: nat, lead: seq<Message>)
    requires i < |all|
    ensures lead + Emitted(p, all, boundary, i + 1)
            == if all[i].seqNo > boundary then lead + Emitted(p, all, boundary, i) + MessagesAt(p, all, boundary, i)
               else lead + Emitted(p, all, boundary, i)
  {
  }

  lemma CallsBelowNext(calls: map<CallId, Record>, all: seq<Record>, boundary: nat, i: nat)
    requires i < |all| && CallsBelow(calls, all, boundary, i)
    ensures CallsBelow(if all[i].seqNo > boundary && all[i].body.ToolCallStarted?
                       then calls[all[i].body.callId := all[i]]
                       else calls, all, boundary, i + 1)
  {
    assert Init(all[..i + 1]) == all[..i] && Last(all[..i + 1]) == all[i];
  }

  /** The arms of the loop of `build_conversation`. */
  method EmitOne(p: Printer, records: seq<Record>, boundary: nat, i: nat, calls: map<CallId, Record>)
    returns (messages: seq<Message>)
    requires i < |records| && records[i].seqNo > boundary && CallsBelow(calls, records, boundary, i)
    ensures messages == MessagesAt(p, records, boundary, i)
  {
    messages := [];
    var b := records[i].body;
    if b.RunAdmitted? {
      var text := InputText(p, Object(b.input));
      if text != "" {
        messages := messages + [User(text)];
      }
    } else if b.StepStarted? && b.kind == AGENT && INPUT in b.input {
      var text := InputText(p, b.input[INPUT]);
      if text != "" {
        messages := messages + [User(text)];
      }
    } else if b.QueueConsumed? {
      var payload := QueuePayload(p, records, b.entryId);
      if payload != "" {
        messages := messages + [User(payload)];
      }
    } else if b.ModelCallFinished? {
      if b.text != "" || b.toolCalls != [] {
        messages := messages + [Assistant(b.text, ToolCallsOf(records, b.toolCalls))];
      }
    } else if b.SubagentFinished? {
      messages := messages + [User(ChildFinishedText(p, b))];
    } else if b.ToolCallFinished? {
      messages := messages + ToolAnswerOf(p, b, if b.callId in calls then Some(calls[b.callId]) else None);
    }
  }

  /** `_compaction` */
  method CompactionLoop(records: seq<Record>) returns (boundary: nat, applied: seq<Record>)
    ensures boundary == Boundary(records) && applied == Compactions(records)
  {
    boundary, applied := 0, [];
    for i := 0 to |records|
      invariant boundary == Boundary(records[..i]) && applied == Compactions(records[..i])
    {
      assert Init(records[..i + 1]) == records[..i] && Last(records[..i + 1]) == records[i];
      if records[i].body.CompactionApplied? {
        boundary := if records[i].body.replacedToSeq > boundary then records[i].body.replacedToSeq else boundary;
        applied := applied + [records[i]];
      }
    }
    assert records[..|records|] == records;
  }
}
