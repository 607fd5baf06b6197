/** The conversation as a person is shown it, and when that is what the model was sent. */
module ThreadView {
  import opened Values
  import opened Records
  import opened Reducer
  import opened CallHistory
  import opened Conversation

  /** `dict(payload)`: an object is itself and an empty string or list is empty; anything else
      is taken to raise. */
  function AsDict(j: Json): Option<Dict> {
    match j
    case Object(fields) => Some(fields)
    case Text(s) => if s == "" then Some(map[]) else None
    case List(items) => if items == [] then Some(map[]) else None
    case _ => None
  }

  function Row(role: Role, content: string, runId: RunId, r: Record): MessageView {
    MessageView(role, content, runId, r.seqNo, r.at, None, None, false)
  }

  function AsRow(text: string, runId: RunId, r: Record): seq<MessageView> {
    if text == "" then [] else [Row(AsUser, text, runId, r)]
  }

  /** The payload the `queued` dictionary holds for an id, or an empty one. */
  function Queued(all: seq<Record>, id: string): Dict {
    var entry := LastEnqueue(all, id);
    if entry.Some? && entry.value.body.QueueEnqueued? then entry.value.body.payload else map[]
  }

  /** Whether rendering the record raises: a mapped step input that `dict` does not take. */
  predicate Raises(r: Record, boundary: nat) {
    && r.seqNo > boundary
    && r.body.StepStarted? && r.body.kind == AGENT && INPUT in r.body.input
    && AsDict(r.body.input[INPUT]).None?
  }

  /** The rows the record at index `i` puts into the view. */
  function ViewsAt(p: Printer, all: seq<Record>, runId: RunId, boundary: nat, i: nat): seq<MessageView>
    requires i < |all| && !Raises(all[i], boundary)
  {
    var r, b := all[i], all[i].body;
    if r.seqNo <= boundary then []
    else if b.RunAdmitted? then AsRow(InputText(p, Object(b.input)), runId, r)
    else if b.StepStarted? && b.kind == AGENT && INPUT in b.input
    then AsRow(InputText(p, Object(AsDict(b.input[INPUT]).value)), runId, r)
    else if b.QueueConsumed? then AsRow(InputText(p, Object(Queued(all, b.entryId))), runId, r)
    else if b.ModelCallFinished? && (b.text != "" || b.toolCalls != []) then [Row(AsAssistant, b.text, runId, r)]
    else if b.SubagentFinished? then [Row(AsUser, ChildFinishedText(p, b), runId, r)]
    else if b.ToolCallFinished?
    then [MessageView(AsTool, ResultText(p, b), runId, r.seqNo, r.at, Some(ToolName(all, b.callId)),
                      Some(b.callId), b.outcome != ToolOutcome.Ok)]
    else []
  }

  /** The rows of the first `n` records, or None once one of them raises. */
  function Viewed(p: Printer, all: seq<Record>, runId: RunId, boundary: nat, n: nat): Option<seq<MessageView>>
    requires n <= |all|
  {
    if n == 0 then Some([])
    else
      var earlier := Viewed(p, all, runId, boundary, n - 1);
      if earlier.None? || Raises(all[n - 1], boundary) then None
      else Some(earlier.value + ViewsAt(p, all, runId, boundary, n - 1))
  }

  /** The one row standing for every compaction, dated at the last of them. */
  function SummaryRow(p: Printer, log: seq<Record>, runId: RunId): seq<MessageView> {
    var applied := Compactions(log);
    if applied == [] then [] else [Row(AsUser, SummaryText(p, log), runId, Last(applied))]
  }

  /** What `message_views` returns. */
  function ViewsOf(p: Printer, log: seq<Record>): Option<seq<MessageView>> {
    if log == [] then Some([])
    else
      var rows := Viewed(p, log, log[0].runId, Boundary(log), |log|);
      if rows.None? then None else Some(SummaryRow(p, log, log[0].runId) + rows.value)
  }

  /** `message_views` */
  method MessageViews(p: Printer, records: seq<Record>) returns (views: Option<seq<MessageView>>)
    ensures views == ViewsOf(p, records)
  {
    if records == [] {
      return Some([]);
    }
    var runId := records[0].runId;
    var boundary, applied := CompactionLoop(records);
    CompactionsOnly(records);
    var rows := [];
    if applied != [] {
      rows := rows + [Row(AsUser, p.summaryLead + Joined(applied), runId, Last(applied))];
    }
    assert rows == SummaryRow(p, records, runId);
    views := ViewAll(p, records, runId, boundary, rows);
  }

  /** The loop of `message_views`. */
  method ViewAll(p: Printer, records: seq<Record>, runId: RunId, boundary: nat, lead: seq<MessageView>)
    returns (views: Option<seq<MessageView>>)
    ensures var rows := Viewed(p, records, runId, boundary, |records|);
            views == if rows.None? then None else Some(lead + rows.value)
  {
    var queued := QueuedDict(records);
    var rows := lead;
    for i := 0 to |records|
      invariant Viewed(p, records, runId, boundary, i).Some?
      invariant rows == lead + Viewed(p, records, runId, boundary, i).value
    {
      if Raises(records[i], boundary) {
        StaysRaised(p, records, runId, boundary, i + 1, |records|);
        return None;
      }
      var row := ViewOne(p, records, runId, boundary, i, queued);
      rows := rows + row;
    }
    return Some(rows);
  }

  lemma {:induction false} StaysRaised(p: Printer, all: seq<Record>, runId: RunId, boundary: nat, n: nat, m: nat)
    requires n <= m <= |all| && Viewed(p, all, runId, boundary, n).None?
    ensures Viewed(p, all, runId, boundary, m).None?
    decreases m
  {
    if n < m {
      StaysRaised(p, all, runId, boundary, n, m - 1);
    }
  }

  method QueuedDict(records: seq<Record>) returns (queued: map<string, Dict>)
    ensures forall id :: (if id in queued then queued[id] else map[]) == Queued(records, id)
  {
    queued := map[];
    for i := 0 to |records|
      invariant forall id :: (if id in queued then queued[id] else map[]) == Queued(records[..i], id)
    {
      assert Init(records[..i + 1]) == records[..i] && Last(records[..i + 1]) == records[i];
      if records[i].body.QueueEnqueued? {
        queued := queued[records[i].body.entryId := records[i].body.payload];
      }
    }
    assert records[..|records|] == records;
  }

  /** The arms of the loop of `message_views`. */
  method ViewOne(p: Printer, records: seq<Record>, runId: RunId, boundary: nat, i: nat, queued: map<string, Dict>)
    returns (rows: seq<MessageView>)
    requires i < |records| && !Raises(records[i], boundary)
    requires forall id :: (if id in queued then queued[id] else map[]) == Queued(records, id)
    ensures rows == ViewsAt(p, records, runId, boundary, i)
  {
    rows := [];
    var r, b := records[i], records[i].body;
    if r.seqNo <= boundary {
      return;
    }
    if b.RunAdmitted? {
      var text := InputText(p, Object(b.input));
      if text != "" {
        rows := rows + [Row(AsUser, text, runId, r)];
      }
    } else if b.StepStarted? && b.kind == AGENT && INPUT in b.input {
      var text := InputText(p, Object(AsDict(b.input[INPUT]).value));
      if text != "" {
        rows := rows + [Row(AsUser, text, runId, r)];
      }
    } else if b.QueueConsumed? {
      var text := InputText(p, Object(if b.entryId in queued then queued[b.entryId] else map[]));
      if text != "" {
        rows := rows + [Row(AsUser, text, runId, r)];
      }
    } else if b.ModelCallFinished? {
      if b.text != "" || b.toolCalls != [] {
        rows := rows + [Row(AsAssistant, b.text, runId, r)];
      }
    } else if b.SubagentFinished? {
      rows := rows + [Row(AsUser, ChildFinishedText(p, b), runId, r)];
    } else if b.ToolCallFinished? {
      rows := rows + [MessageView(AsTool, ResultText(p, b), runId, r.seqNo, r.at,
                                  Some(ToolName(records, b.callId)), Some(b.callId),
                                  b.outcome != ToolOutcome.Ok)];
    }
  }

  // ------------------------------------------------- lookups on accepted logs

  lemma {:induction false} FirstEnqueueSnoc(log: seq<Record>, id: string)
    requires log != []
    ensures FirstEnqueue(log, id)
            == if FirstEnqueue(Init(log), id).Some? then FirstEnqueue(Init(log), id)
               else if Last(log).body.QueueEnqueued? && Last(log).body.entryId == id then Some(Last(log))
               else None
  {
    if |log| == 1 {
      assert log[1..] == [];
    } else {
      assert Init(log)[1..] == Init(log[1..]);
      FirstEnqueueSnoc(log[1..], id);
    }
  }

  lemma {:induction false} FirstStartSnoc(log: seq<Record>, id: CallId)
    requires log != []
    ensures FirstStart(log, id)
            == if FirstStart(Init(log), id).Some? then FirstStart(Init(log), id)
               else if Last(log).body.ToolCallStarted? && Last(log).body.callId == id then Some(Last(log))
               else None
  {
    if |log| == 1 {
      assert log[1..] == [];
    } else {
      assert Init(log)[1..] == Init(log[1..]);
      FirstStartSnoc(log[1..], id);
    }
  }

  lemma EnqueueOnce(f: Fold, r: Record)
    requires Step(f, r).Accepted?
    ensures Step(f, r).value.locals.enqueued.Keys
            == f.locals.enqueued.Keys + (if r.body.QueueEnqueued? then {r.body.entryId} else {})
    ensures r.body.QueueEnqueued? ==> r.body.entryId !in f.locals.enqueued
  {
  }

  /** The first and the last enqueue of an id are one record, because the fold refuses a second. */
  lemma {:induction false} OneEnqueue(runId: RunId, scope: Scope, log: seq<Record>, id: string)
    requires Accepts(Fresh(runId, scope), log)
    ensures FirstEnqueue(log, id) == LastEnqueue(log, id)
    ensures FirstEnqueue(log, id).Some? <==> id in After(Fresh(runId, scope), log).locals.enqueued
  {
    if log == [] {
      assert Fresh(runId, scope).locals.enqueued == map[];
    } else {
      RunSnoc(Fresh(runId, scope), log);
      OneEnqueue(runId, scope, Init(log), id);
      FirstEnqueueSnoc(log, id);
      EnqueueOnce(After(Fresh(runId, scope), Init(log)), Last(log));
    }
  }

  lemma StartOnce(f: Fold, r: Record)
    requires Step(f, r).Accepted? && r.body.ToolCallStarted?
    ensures r.body.callId !in f.locals.started
  {
  }

  /** The first and the last start of a call are one record, because the fold refuses a second. */
  lemma {:induction false} OneStart(runId: RunId, scope: Scope, log: seq<Record>, id: CallId)
    requires Accepts(Fresh(runId, scope), log)
    ensures FirstStart(log, id) == StartOf(log, id)
  {
    if log != [] {
      RunSnoc(Fresh(runId, scope), log);
      OneStart(runId, scope, Init(log), id);
      FirstStartSnoc(log, id);
      StartsKnownAlways(runId, scope, Init(log));
      if Last(log).body.ToolCallStarted? {
        StartOnce(After(Fresh(runId, scope), Init(log)), Last(log));
      }
    }
  }

  /** A call started in a prefix has the same start in the whole log. */
  lemma {:induction false} StartKept(runId: RunId, scope: Scope, log: seq<Record>, n: nat, id: CallId)
    requires Accepts(Fresh(runId, scope), log) && n <= |log| && StartOf(log[..n], id).Some?
    ensures StartOf(log, id) == StartOf(log[..n], id)
    decreases |log|
  {
    if n == |log| {
      assert log[..n] == log;
    } else {
      RunSnoc(Fresh(runId, scope), log);
      assert Init(log)[..n] == log[..n];
      StartKept(runId, scope, Init(log), n, id);
      StartsKnownAlways(runId, scope, Init(log));
      if Last(log).body.ToolCallStarted? {
        StartOnce(After(Fresh(runId, scope), Init(log)), Last(log));
      }
    }
  }

  /** Above a boundary, the `calls` dictionary knows a call exactly when its start is above it. */
  lemma {:induction false} StartAboveIsStart(runId: RunId, scope: Scope, log: seq<Record>, boundary: nat, id: CallId)
    requires Accepts(Fresh(runId, scope), log)
    ensures StartAbove(log, boundary, id)
            == if StartOf(log, id).Some? && StartOf(log, id).value.seqNo > boundary then StartOf(log, id) else None
  {
    if log != [] {
      RunSnoc(Fresh(runId, scope), log);
      StartAboveIsStart(runId, scope, Init(log), boundary, id);
      if Last(log).body.ToolCallStarted? && Last(log).body.callId == id && Last(log).seqNo <= boundary {
        StartsKnownAlways(runId, scope, Init(log));
        StartOnce(After(Fresh(runId, scope), Init(log)), Last(log));
      }
    }
  }

  // ------------------------------------------------------- the two agree

  function RoleOf(m: Message): (Role, string) {
    match m
    case User(content) => (AsUser, content)
    case Assistant(content, _) => (AsAssistant, content)
    case ToolAnswer(_, _, content, _) => (AsTool, content)
  }

  function Roles(messages: seq<Message>): seq<(Role, string)> {
    seq(|messages|, i requires 0 <= i < |messages| => RoleOf(messages[i]))
  }

  /** A call that a `run_code` program made, not the model. */
  predicate ProgramMade(log: seq<Record>, id: CallId) {
    var start := StartOf(log, id);
    start.Some? && start.value.body.ToolCallStarted? && start.value.body.parentCallId.Some?
  }

  predicate OfProgram(log: seq<Record>, v: MessageView) {
    v.role == AsTool && v.toolCallId.Some? && ProgramMade(log, v.toolCallId.value)
  }

  /** The rows by role and content, without the tool rows of program-made calls. */
  function Shown(log: seq<Record>, views: seq<MessageView>): seq<(Role, string)> {
    if views == [] then []
    else
      Shown(log, Init(views))
      + (if OfProgram(log, Last(views)) then [] else [(Last(views).role, Last(views).content)])
  }

  /** A program-made call that started at or below the boundary and ends above it. */
  predicate StraddlesAt(log: seq<Record>, boundary: nat, i: nat)
    requires i < |log|
  {
    && log[i].seqNo > boundary && log[i].body.ToolCallFinished?
    && ProgramMade(log, log[i].body.callId)
    && StartOf(log, log[i].body.callId).value.seqNo <= boundary
  }

  function Straddling(log: seq<Record>, boundary: nat, n: nat): nat
    requires n <= |log|
  {
    if n == 0 then 0
    else Straddling(log, boundary, n - 1) + (if StraddlesAt(log, boundary, n - 1) then 1 else 0)
  }

  lemma {:induction false} StraddlingIs(log: seq<Record>, boundary: nat, n: nat)
    requires n <= |log|
    ensures Straddling(log, boundary, n) == 0 <==> forall i :: 0 <= i < n ==> !StraddlesAt(log, boundary, i)
  {
    if n > 0 {
      StraddlingIs(log, boundary, n - 1);
    }
  }

  lemma {:induction false} ShownConcat(log: seq<Record>, a: seq<MessageView>, b: seq<MessageView>)
    ensures Shown(log, a + b) == Shown(log, a) + Shown(log, b)
  {
    if b == [] {
      assert a + b == a;
    } else {
      assert Init(a + b) == a + Init(b) && Last(a + b) == Last(b);
      ShownConcat(log, a, Init(b));
    }
  }

  lemma RolesConcat(a: seq<Message>, b: seq<Message>)
    ensures Roles(a + b) == Roles(a) + Roles(b)
  {
  }

  lemma ShownOne(log: seq<Record>, v: MessageView)
    ensures Shown(log, [v]) == if OfProgram(log, v) then [] else [(v.role, v.content)]
  {
    assert Init([v]) == [];
  }

  lemma SameText(p: Printer, text: string, runId: RunId, r: Record, log: seq<Record>)
    ensures Shown(log, AsRow(text, runId, r)) == Roles(AsText(text))
  {
    if text != "" {
      ShownOne(log, Row(AsUser, text, runId, r));
    }
  }

  /** What acceptance buys the projections: every lookup finds the one record it can find. */
  ghost predicate LookupsMeet(log: seq<Record>, boundary: nat) {
    && (forall id :: FirstEnqueue(log, id) == LastEnqueue(log, id))
    && forall i :: 0 <= i < |log| && log[i].body.ToolCallFinished? ==> FindsStart(log, boundary, i)
  }

  ghost predicate FindsStart(log: seq<Record>, boundary: nat, i: nat)
    requires i < |log| && log[i].body.ToolCallFinished?
  {
    var start := StartOf(log, log[i].body.callId);
    && start.Some?
    && StartAbove(log[..i], boundary, log[i].body.callId) == if start.value.seqNo > boundary then start else None
  }

  lemma AcceptedFindsStart(runId: RunId, scope: Scope, log: seq<Record>, boundary: nat, i: nat)
    requires Accepts(Fresh(runId, scope), log) && i < |log| && log[i].body.ToolCallFinished?
    ensures FindsStart(log, boundary, i)
  {
    var id := log[i].body.callId;
    AcceptsPrefix(Fresh(runId, scope), log, i + 1);
    assert Init(log[..i + 1]) == log[..i] && Last(log[..i + 1]) == log[i];
    FinishAnswers(runId, scope, log[..i + 1]);
    StartKept(runId, scope, log, i, id);
    StartAboveIsStart(runId, scope, log[..i], boundary, id);
  }

  lemma AcceptedLookups(runId: RunId, scope: Scope, log: seq<Record>, boundary: nat)
    requires Accepts(Fresh(runId, scope), log)
    ensures LookupsMeet(log, boundary)
  {
    forall id
      ensures FirstEnqueue(log, id) == LastEnqueue(log, id)
    {
      OneEnqueue(runId, scope, log, id);
    }
    forall i | 0 <= i < |log| && log[i].body.ToolCallFinished?
      ensures FindsStart(log, boundary, i)
    {
      AcceptedFindsStart(runId, scope, log, boundary, i);
    }
  }

  /** Each record shows what it sends, but for a program-made call that straddles the boundary:
      that one is sent, as an answer to nobody, and not shown. */
  lemma SameAt(p: Printer, runId: RunId, log: seq<Record>, boundary: nat, i: nat)
    requires LookupsMeet(log, boundary) && i < |log| && !Raises(log[i], boundary)
    ensures var views, messages := ViewsAt(p, log, runId, boundary, i), MessagesAt(p, log, boundary, i);
            if StraddlesAt(log, boundary, i) then Shown(log, views) == [] && |messages| == 1
            else Shown(log, views) == Roles(messages)
  {
    var r, b := log[i], log[i].body;
    if r.seqNo > boundary {
      if b.RunAdmitted? {
        SameText(p, InputText(p, Object(b.input)), runId, r, log);
      } else if b.StepStarted? && b.kind == AGENT && INPUT in b.input {
        SameText(p, InputText(p, b.input[INPUT]), runId, r, log);
        SameInput(p, b.input[INPUT]);
      } else if b.QueueConsumed? {
        SameText(p, QueuePayload(p, log, b.entryId), runId, r, log);
        EmptyInput(p);
      } else if b.ModelCallFinished? && (b.text != "" || b.toolCalls != []) {
        ShownOne(log, Row(AsAssistant, b.text, runId, r));
      } else if b.SubagentFinished? {
        ShownOne(log, Row(AsUser, ChildFinishedText(p, b), runId, r));
      } else if b.ToolCallFinished? {
        SameAnswer(p, runId, log, boundary, i);
      }
    }
  }

  lemma SameAnswer(p: Printer, runId: RunId, log: seq<Record>, boundary: nat, i: nat)
    requires i < |log| && log[i].body.ToolCallFinished? && FindsStart(log, boundary, i) && log[i].seqNo > boundary
    ensures var views, messages := ViewsAt(p, log, runId, boundary, i), MessagesAt(p, log, boundary, i);
            if StraddlesAt(log, boundary, i) then Shown(log, views) == [] && |messages| == 1
            else Shown(log, views) == Roles(messages)
  {
    var b, start := log[i].body, StartOf(log, log[i].body.callId);
    StartOfIs(log, b.callId);
    var row := MessageView(AsTool, ResultText(p, b), runId, log[i].seqNo, log[i].at, Some(ToolName(log, b.callId)),
                           Some(b.callId), b.outcome != ToolOutcome.Ok);
    assert ViewsAt(p, log, runId, boundary, i) == [row];
    ShownOne(log, row);
    assert OfProgram(log, row) <==> start.value.body.parentCallId.Some?;
  }

  lemma EmptyInput(p: Printer)
    ensures InputText(p, Object(map[])) == ""
  {
    var fields: Dict := map[];
    assert TextUnder(fields, TEXT_KEYS).None? by {
      NoText(TEXT_KEYS);
    }
  }

  lemma {:induction false} NoText(keys: seq<string>)
    ensures TextUnder(map[], keys).None?
  {
    if keys != [] {
      NoText(keys[1..]);
    }
  }

  lemma SameInput(p: Printer, j: Json)
    requires AsDict(j).Some?
    ensures InputText(p, Object(AsDict(j).value)) == InputText(p, j)
  {
    EmptyInput(p);
  }

  lemma {:induction false} SameRows(p: Printer, runId: RunId, log: seq<Record>, boundary: nat, n: nat)
    requires LookupsMeet(log, boundary) && n <= |log| && Viewed(p, log, runId, boundary, n).Some?
    ensures var shown := Shown(log, Viewed(p, log, runId, boundary, n).value);
            var sent := Roles(Emitted(p, log, boundary, n));
            && |sent| == |shown| + Straddling(log, boundary, n)
            && (Straddling(log, boundary, n) == 0 ==> shown == sent)
  {
    if n > 0 {
      var rows, more := Viewed(p, log, runId, boundary, n - 1).value, ViewsAt(p, log, runId, boundary, n - 1);
      var sent, next := Emitted(p, log, boundary, n - 1), MessagesAt(p, log, boundary, n - 1);
      assert Viewed(p, log, runId, boundary, n).value == rows + more && Emitted(p, log, boundary, n) == sent + next;
      SameRows(p, runId, log, boundary, n - 1);
      SameAt(p, runId, log, boundary, n - 1);
      ShownConcat(log, rows, more);
      RolesConcat(sent, next);
    }
  }

  lemma SameSummary(p: Printer, log: seq<Record>, runId: RunId)
    ensures Shown(log, SummaryRow(p, log, runId)) == Roles(SummaryMessage(p, log))
  {
    if Compactions(log) != [] {
      ShownOne(log, SummaryRow(p, log, runId)[0]);
    }
  }

  /** A view that renders is the conversation exactly when nothing straddles. */
  lemma RowsAgree(p: Printer, log: seq<Record>, boundary: nat, rows: seq<MessageView>)
    requires log != [] && LookupsMeet(log, boundary)
    requires Viewed(p, log, log[0].runId, boundary, |log|) == Some(rows)
    ensures Shown(log, SummaryRow(p, log, log[0].runId) + rows)
            == Roles(SummaryMessage(p, log) + Emitted(p, log, boundary, |log|))
            <==> forall i :: 0 <= i < |log| ==> !StraddlesAt(log, boundary, i)
  {
    SameRows(p, log[0].runId, log, boundary, |log|);
    SameSummary(p, log, log[0].runId);
    ShownConcat(log, SummaryRow(p, log, log[0].runId), rows);
    RolesConcat(SummaryMessage(p, log), Emitted(p, log, boundary, |log|));
    StraddlingIs(log, boundary, |log|);
  }

  lemma LookupsSuffice(p: Printer, log: seq<Record>)
    requires log != [] && LookupsMeet(log, Boundary(log)) && ViewsOf(p, log).Some?
    ensures Agrees(p, log)
  {
    RowsAgree(p, log, Boundary(log), Viewed(p, log, log[0].runId, Boundary(log), |log|).value);
  }

  /** The view without the tool rows of program-made calls is the conversation, by role and
      content and in order, exactly when no program-made call straddles the boundary. */
  ghost predicate Agrees(p: Printer, log: seq<Record>)
    requires ViewsOf(p, log).Some?
  {
    Shown(log, ViewsOf(p, log).value) == Roles(ConversationOf(p, log))
    <==> forall i :: 0 <= i < |log| ==> !StraddlesAt(log, Boundary(log), i)
  }

  /** Rendering raises exactly when some record above the boundary does. */
  lemma {:induction false} ViewedUnlessRaised(p: Printer, all: seq<Record>, runId: RunId, boundary: nat, n: nat)
    requires n <= |all|
    ensures Viewed(p, all, runId, boundary, n).Some? <==> forall i :: 0 <= i < n ==> !Raises(all[i], boundary)
  {
    if n > 0 {
      ViewedUnlessRaised(p, all, runId, boundary, n - 1);
    }
  }

  lemma ViewsUnlessRaised(p: Printer, log: seq<Record>)
    ensures ViewsOf(p, log).Some? <==> forall i :: 0 <= i < |log| ==> !Raises(log[i], Boundary(log))
  {
    if log != [] {
      ViewedUnlessRaised(p, log, log[0].runId, Boundary(log), |log|);
    }
  }

  /** So it is for every accepted log in which no record above the boundary raises. */
  lemma ProjectionsAgree(p: Printer, runId: RunId, scope: Scope, log: seq<Record>)
    requires log != [] && Accepts(Fresh(runId, scope), log)
    requires forall i :: 0 <= i < |log| ==> !Raises(log[i], Boundary(log))
    ensures ViewsOf(p, log).Some?
    ensures Agrees(p, log)
  {
    ViewsUnlessRaised(p, log);
    AcceptedLookups(runId, scope, log, Boundary(log));
    LookupsSuffice(p, log);
  }
}
