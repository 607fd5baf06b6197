/** Every part of the folded state, said from the log alone. */
module History {
  import opened Values
  import opened Metering
  import opened Records
  import opened Reducer
  import opened LogTerms

  /** One record's effect, part by part, and that it passed its check. */
  lemma {:induction false} Parts(f: Fold, r: Record)
    requires Step(f, r).Accepted?
    ensures Check(f, r).None?
    ensures var s, s' := f.state, Step(f, r).value.state;
            && s'.life == LifeStep(s.life, r) && s'.turns == TurnsStep(s.turns, r.body)
            && s'.calls == CallsStep(s.calls, r) && s'.steps == StepsStep(s.steps, r)
            && s'.queues == QueuesStep(s.queues, f.locals, r) && s'.waiting == WaitingStep(s.waiting, r)
            && s'.approvals == ApprovalsStep(s.approvals, s.waiting.pause, r.body)
            && s'.family == FamilyStep(s.family, r) && s'.bill == BillStep(s.bill, r.body)
            && s'.shown == ShownStep(s.shown, r.body)
    ensures Step(f, r).value.locals == LocalsStep(f.locals, r)
  {
  }

  /** The last record of an accepted log, and the fold before it. */
  lemma {:induction false} Before(runId: RunId, scope: Scope, log: seq<Record>)
    requires Accepts(Fresh(runId, scope), log) && log != []
    ensures Accepts(Fresh(runId, scope), Init(log))
    ensures Step(After(Fresh(runId, scope), Init(log)), Last(log)) == Accepted(After(Fresh(runId, scope), log))
  {
    RunSnoc(Fresh(runId, scope), log);
  }

  // ------------------------------------------------- admission, attempts, end

  predicate AdmittedBy(a: Admission, b: Body) {
    && b.RunAdmitted?
    && a.versionHash == b.versionHash && a.runInput == b.input && a.deadlineAt == Some(b.deadlineAt)
    && a.parentRunId == b.parentRunId && a.delegationDepth == b.delegationDepth
    && a.continuesRunId == b.continuesRunId && a.idempotencyKey == b.idempotencyKey
    && a.replaysRunId == b.replaysRunId && a.replayFromStep == b.replayFromStep && a.breakpoints == b.breakpoints
  }

  ghost predicate LifeMeans(l: Life, log: seq<Record>) {
    var admitted, attempt, settled := Latest(log, Admissions), Latest(log, Attempts), Latest(log, Settlements);
    && (l.admitted <==> admitted >= 0)
    && (if admitted >= 0 then AdmittedBy(l.admission, log[admitted].body) else l.admission == NOT_ADMITTED)
    && l.attemptCount == Count(log, Attempts)
    && l.currentAttempt == (if attempt >= 0 then log[attempt].attemptId else None)
    && (l.settled <==> settled >= 0)
    && l.terminal == (if settled >= 0 then Some(log[settled].body.terminal) else None)
    && l.output == (if settled >= 0 then log[settled].body.output else None)
    && l.failure == (if settled >= 0 then log[settled].body.failure else None)
  }

  lemma {:induction false} LifeNext(l: Life, log: seq<Record>)
    requires log != [] && LifeMeans(l, Init(log))
    requires Last(log).body.AttemptStarted? ==> Last(log).body.attemptNumber == l.attemptCount + 1
    ensures LifeMeans(LifeStep(l, Last(log)), log)
  {
  }

  // -------------------------------------------------------------------- turns

  ghost predicate TurnsMean(t: Turns, log: seq<Record>) {
    && t.turn == Count(log, TurnStarts)
    && (t.turnOpen <==> Latest(log, TurnStarts) > Latest(log, TurnEnds))
    && (t.callOpen <==> Latest(log, ModelStarts) > Latest(log, TurnEnds))
  }

  lemma {:induction false} TurnKinds(log: seq<Record>)
    requires log != []
    ensures var b, n := Last(log).body, |log| - 1;
            && Latest(log, TurnStarts) == (if b.TurnStarted? then n else Latest(Init(log), TurnStarts))
            && Count(log, TurnStarts) == Count(Init(log), TurnStarts) + (if b.TurnStarted? then 1 else 0)
            && Latest(log, ModelStarts) == (if b.ModelCallStarted? then n else Latest(Init(log), ModelStarts))
            && Latest(log, TurnEnds)
               == (if b.AttemptStarted? || b.ModelCallFinished? || b.ModelCallFailed? || b.Suspended? || b.RunSettled?
                   then n else Latest(Init(log), TurnEnds))
  {
  }

  lemma {:induction false} TurnsNext(t: Turns, log: seq<Record>)
    requires log != [] && TurnsMean(t, Init(log))
    requires Last(log).body.TurnStarted? ==> Last(log).body.turn == t.turn + 1
    ensures TurnsMean(TurnsStep(t, Last(log).body), log)
  {
    TurnKinds(log);
  }

  // -------------------------------------------------------------- tool calls

  predicate OpenIn(log: seq<Record>, id: CallId) {
    Latest(log, CallStarts(id)) > Latest(log, CallEnds(id))
  }

  predicate OpenedAs(c: OpenToolCall, r: Record) {
    && r.body.ToolCallStarted?
    && c.callId == r.body.callId && c.tool == r.body.tool && c.arguments == r.body.arguments
    && c.turn == r.body.turn && c.atStep == r.body.atStep && c.interruptible == r.body.interruptible
    && c.safeToRetry == r.body.safeToRetry && c.startedAt == r.at
  }

  ghost predicate OpenMeans(open: map<CallId, OpenToolCall>, log: seq<Record>) {
    && (forall id :: id in open <==> OpenIn(log, id))
    && forall id :: id in open ==> OpenedAs(open[id], log[Latest(log, CallStarts(id))])
  }

  lemma {:induction false} CallStartEffect(c: Calls, r: Record)
    requires r.body.ToolCallStarted?
    ensures var c', b := CallsStep(c, r), r.body;
            var ofProgram := b.tool != "run_code" && b.parentCallId.Some? && b.parentCallId.value in c.programs;
            && c'.open.Keys == c.open.Keys + {b.callId} && OpenedAs(c'.open[b.callId], r)
            && (forall id :: id in c.open && id != b.callId ==> c'.open[id] == c.open[id])
            && c'.results == c.results && c'.handles == c.handles && c'.preservedBytes == c.preservedBytes
            && c'.programs == c.programs + (if b.tool == "run_code" then {b.callId} else {})
            && c'.programOpen == c.programOpen + (if ofProgram then {b.callId} else {})
            && c'.programCalls == c.programCalls + (if ofProgram then 1 else 0)
  {
  }

  lemma {:induction false} CallEndEffect(c: Calls, r: Record)
    requires r.body.ToolCallFinished? && r.body.callId in c.open
    ensures var c', b := CallsStep(c, r), r.body;
            && c'.open.Keys == c.open.Keys - {b.callId}
            && (forall id :: id in c'.open ==> c'.open[id] == c.open[id])
            && |c'.results| == |c.results| + 1 && Init(c'.results) == c.results
            && ResultAs(Last(c'.results), b, c.open[b.callId].tool, c.open[b.callId].turn)
            && c'.programs == c.programs && c'.programOpen == c.programOpen - {b.callId}
            && c'.programCalls == c.programCalls
            && c'.preservedBytes
               == c.preservedBytes
                  + (if b.callId in c.programOpen && b.resultHandle.Some? then b.resultBytes else 0)
  {
  }

  lemma {:induction false} CallOtherEffect(c: Calls, r: Record)
    requires !r.body.ToolCallStarted? && !r.body.ToolCallFinished?
    ensures CallsStep(c, r) == c
  {
  }

  predicate ResultAs(t: ToolResult, b: Body, tool: string, turn: nat)
    requires b.ToolCallFinished?
  {
    && t.callId == b.callId && t.tool == tool && t.turn == turn
    && t.outcome == b.outcome && t.result == b.result && t.failure == b.failure
    && t.resultHandle == b.resultHandle && t.preview == b.preview
    && t.blobKey == b.resultBlobKey && t.contentType == b.resultContentType && t.attachments == b.attachments
  }

  /** What the last record does to the latest start and end of a call. */
  lemma {:induction false} CallKinds(log: seq<Record>, id: CallId)
    requires log != []
    ensures var b, n := Last(log).body, |log| - 1;
            && Latest(log, CallStarts(id))
               == (if b.ToolCallStarted? && b.callId == id then n else Latest(Init(log), CallStarts(id)))
            && Latest(log, CallEnds(id))
               == (if b.ToolCallFinished? && b.callId == id then n else Latest(Init(log), CallEnds(id)))
            && Latest(log, RunCodeStarts(id))
               == (if b.ToolCallStarted? && b.callId == id && b.tool == "run_code" then n
                   else Latest(Init(log), RunCodeStarts(id)))
  {
  }

  lemma {:induction false} OpenNext(c: Calls, log: seq<Record>)
    requires log != [] && OpenMeans(c.open, Init(log))
    requires Last(log).body.ToolCallFinished? ==> Last(log).body.callId in c.open
    ensures OpenMeans(CallsStep(c, Last(log)).open, log)
  {
    var r, c' := Last(log), CallsStep(c, Last(log));
    CallEffects(c, r);
    forall id
      ensures id in c'.open <==> OpenIn(log, id)
      ensures id in c'.open ==> OpenedAs(c'.open[id], log[Latest(log, CallStarts(id))])
    {
      CallKinds(log, id);
      OneOpen(c.open, c'.open, log, id);
    }
  }

  /** The three effects at once, on the open calls. */
  lemma {:induction false} CallEffects(c: Calls, r: Record)
    requires r.body.ToolCallFinished? ==> r.body.callId in c.open
    ensures OpenEffect(c.open, CallsStep(c, r).open, r)
  {
    if r.body.ToolCallStarted? {
      CallStartEffect(c, r);
    } else if r.body.ToolCallFinished? {
      CallEndEffect(c, r);
    } else {
      CallOtherEffect(c, r);
    }
  }

  ghost predicate OpenEffect(open: map<CallId, OpenToolCall>, open': map<CallId, OpenToolCall>, r: Record) {
    if r.body.ToolCallStarted? then
      && open'.Keys == open.Keys + {r.body.callId} && OpenedAs(open'[r.body.callId], r)
      && forall id :: id in open && id != r.body.callId ==> open'[id] == open[id]
    else if r.body.ToolCallFinished? then
      open'.Keys == open.Keys - {r.body.callId} && forall id :: id in open' ==> open'[id] == open[id]
    else open' == open
  }

  lemma {:induction false} OneOpen(
      open: map<CallId, OpenToolCall>, open': map<CallId, OpenToolCall>, log: seq<Record>, id: CallId)
    requires log != [] && OpenMeans(open, Init(log)) && OpenEffect(open, open', Last(log))
    ensures id in open' <==> OpenIn(log, id)
    ensures id in open' ==> OpenedAs(open'[id], log[Latest(log, CallStarts(id))])
  {
    var r, i := Last(log), Latest(Init(log), CallStarts(id));
    CallKinds(log, id);
    assert i >= 0 ==> log[i] == Init(log)[i];
    assert id in open <==> OpenIn(Init(log), id);
    if id in open && !(r.body.ToolCallStarted? && r.body.callId == id) {
      assert OpenedAs(open[id], log[i]);
    }
  }

  /** The result of the call that ended at `i`, with the tool and turn it was started with. */
  predicate ResultOf(t: ToolResult, log: seq<Record>, i: nat)
    requires i < |log| && log[i].body.ToolCallFinished?
  {
    var s := Latest(log[..i], CallStarts(log[i].body.callId));
    s >= 0 && ResultAs(t, log[i].body, log[s].body.tool, log[s].body.turn)
  }

  ghost predicate ResultsMean(results: seq<ToolResult>, log: seq<Record>) {
    ResultsAt(results, log, Where(log, AllCallEnds))
  }

  lemma {:induction false} ResultEarlier(log: seq<Record>, i: nat, t: ToolResult)
    requires i < |log| - 1 && log[i].body.ToolCallFinished?
    ensures Init(log)[i] == log[i]
    ensures ResultOf(t, Init(log), i) ==> ResultOf(t, log, i)
  {
    assert Init(log)[..i] == log[..i];
  }

  /** Results of the ends at some places. */
  ghost predicate ResultsAt(results: seq<ToolResult>, log: seq<Record>, at: seq<nat>) {
    && |results| == |at|
    && forall n :: 0 <= n < |at| ==>
         at[n] < |log| && log[at[n]].body.ToolCallFinished? && ResultOf(results[n], log, at[n])
  }

  lemma {:induction false} ResultsEarlier(results: seq<ToolResult>, log: seq<Record>, at: seq<nat>)
    requires log != [] && ResultsAt(results, Init(log), at)
    ensures ResultsAt(results, log, at)
  {
    forall n | 0 <= n < |at|
      ensures at[n] < |log| && log[at[n]].body.ToolCallFinished? && ResultOf(results[n], log, at[n])
    {
      ResultEarlier(log, at[n], results[n]);
    }
  }

  lemma {:induction false} ResultsNext(c: Calls, log: seq<Record>)
    requires log != [] && ResultsMean(c.results, Init(log)) && OpenMeans(c.open, Init(log))
    requires Last(log).body.ToolCallFinished? ==> Last(log).body.callId in c.open
    ensures ResultsMean(CallsStep(c, Last(log)).results, log)
  {
    var at, results := Where(Init(log), AllCallEnds), CallsStep(c, Last(log)).results;
    ResultsEarlier(c.results, log, at);
    if Last(log).body.ToolCallFinished? {
      ResultLast(c, log);
      OneMoreResult(c.results, results, log, at, |log| - 1);
    } else {
      SameResults(c, log);
    }
  }

  lemma {:induction false} OneMoreResult(
      results: seq<ToolResult>, all: seq<ToolResult>, log: seq<Record>, at: seq<nat>, i: nat)
    requires ResultsAt(results, log, at) && all != [] && Init(all) == results
    requires i < |log| && log[i].body.ToolCallFinished? && ResultOf(Last(all), log, i)
    ensures ResultsAt(all, log, at + [i])
  {
    assert forall n :: 0 <= n < |results| ==> all[n] == results[n];
  }

  lemma {:induction false} SameResults(c: Calls, log: seq<Record>)
    requires log != [] && !Last(log).body.ToolCallFinished?
    ensures CallsStep(c, Last(log)).results == c.results
    ensures Where(log, AllCallEnds) == Where(Init(log), AllCallEnds)
  {
    if Last(log).body.ToolCallStarted? {
      CallStartEffect(c, Last(log));
    } else {
      CallOtherEffect(c, Last(log));
    }
  }

  lemma {:induction false} ResultLast(c: Calls, log: seq<Record>)
    requires log != [] && Last(log).body.ToolCallFinished? && OpenMeans(c.open, Init(log))
    requires Last(log).body.callId in c.open
    ensures var results := CallsStep(c, Last(log)).results;
            && |results| == |c.results| + 1 && Init(results) == c.results
            && ResultOf(Last(results), log, |log| - 1)
    ensures Where(log, AllCallEnds) == Where(Init(log), AllCallEnds) + [|log| - 1]
  {
    CallEndEffect(c, Last(log));
    OpenFrom(c.open, log, Last(log).body.callId);
    EndsLast(log);
  }

  lemma {:induction false} EndsLast(log: seq<Record>)
    requires log != [] && Last(log).body.ToolCallFinished?
    ensures Where(log, AllCallEnds) == Where(Init(log), AllCallEnds) + [|log| - 1]
  {
  }

  /** The start an open call came from, seen from the record after the log. */
  lemma {:induction false} OpenFrom(open: map<CallId, OpenToolCall>, log: seq<Record>, id: CallId)
    requires log != [] && OpenMeans(open, Init(log)) && id in open
    ensures var s := Latest(log[..|log| - 1], CallStarts(id));
            s >= 0 && log[s].body.ToolCallStarted?
            && open[id].tool == log[s].body.tool && open[id].turn == log[s].body.turn
  {
    assert log[..|log| - 1] == Init(log);
    var s := Latest(Init(log), CallStarts(id));
    assert OpenIn(Init(log), id) && OpenedAs(open[id], Init(log)[s]);
    assert log[s] == Init(log)[s];
  }

  ghost predicate HandlesMean(handles: map<string, CallId>, log: seq<Record>) {
    forall h :: HandleMeans(handles, log, h)
  }

  lemma {:induction false} AttachmentsIssue(
      handles: map<string, CallId>, attachments: seq<Attachment>, id: CallId, h: string)
    ensures var all := WithAttachments(handles, attachments, id);
            if IssuedBy(attachments, h) then h in all && all[h] == id
            else (h in all <==> h in handles) && (h in all ==> all[h] == handles[h])
  {
    if attachments != [] {
      AttachmentsIssue(handles, Init(attachments), id, h);
      assert attachments == Init(attachments) + [Last(attachments)];
      assert IssuedBy(attachments, h) <==>
             IssuedBy(Init(attachments), h) || (Last(attachments).readable && Last(attachments).handle == h);
    }
  }

  predicate IssuedBy(attachments: seq<Attachment>, h: string) {
    exists a :: a in attachments && a.readable && a.handle == h
  }

  lemma {:induction false} IssueIs(log: seq<Record>, h: string)
    requires log != []
    ensures var b := Last(log).body;
            Latest(log, Issues(h))
            == if b.ToolCallFinished? && (b.resultHandle == Some(h) || IssuedBy(b.attachments, h)) then |log| - 1
               else Latest(Init(log), Issues(h))
  {
  }

  lemma {:induction false} HandleEffect(c: Calls, r: Record, h: string)
    requires r.body.ToolCallFinished? && r.body.callId in c.open
    ensures var handles, b := CallsStep(c, r).handles, r.body;
            if b.resultHandle == Some(h) || IssuedBy(b.attachments, h) then h in handles && handles[h] == b.callId
            else (h in handles <==> h in c.handles) && (h in handles ==> handles[h] == c.handles[h])
  {
    var b := r.body;
    var before := if b.resultHandle.Some? then c.handles[b.resultHandle.value := b.callId] else c.handles;
    AttachmentsIssue(before, b.attachments, b.callId, h);
    assert CallsStep(c, r).handles == WithAttachments(before, b.attachments, b.callId);
  }

  lemma {:induction false} SameHandles(c: Calls, r: Record)
    requires !r.body.ToolCallFinished?
    ensures CallsStep(c, r).handles == c.handles
  {
  }

  predicate HandleMeans(handles: map<string, CallId>, log: seq<Record>, h: string) {
    var i := Latest(log, Issues(h));
    (h in handles <==> i >= 0) && (h in handles ==> handles[h] == log[i].body.callId)
  }

  lemma {:induction false} OneHandleNext(c: Calls, log: seq<Record>, h: string)
    requires log != [] && HandleMeans(c.handles, Init(log), h)
    requires Last(log).body.ToolCallFinished? ==> Last(log).body.callId in c.open
    ensures HandleMeans(CallsStep(c, Last(log)).handles, log, h)
  {
    IssueIs(log, h);
    if Last(log).body.ToolCallFinished? {
      HandleEffect(c, Last(log), h);
    } else {
      SameHandles(c, Last(log));
    }
  }

  lemma {:induction false} HandlesNext(c: Calls, log: seq<Record>)
    requires log != [] && HandlesMean(c.handles, Init(log))
    requires Last(log).body.ToolCallFinished? ==> Last(log).body.callId in c.open
    ensures HandlesMean(CallsStep(c, Last(log)).handles, log)
  {
    forall h ensures HandleMeans(CallsStep(c, Last(log)).handles, log, h) {
      OneHandleNext(c, log, h);
    }
  }

  ghost predicate ProgramSetMeans(programs: set<CallId>, log: seq<Record>) {
    forall id :: id in programs <==> Latest(log, RunCodeStarts(id)) >= 0
  }

  predicate ProgramOpenIn(log: seq<Record>, id: CallId) {
    OpenIn(log, id) && Latest(log, CallStarts(id)) >= 0 && MadeByProgram(log, Latest(log, CallStarts(id)))
  }

  ghost predicate ProgramOpenMeans(open: set<CallId>, log: seq<Record>) {
    forall id :: id in open <==> ProgramOpenIn(log, id)
  }

  /** What the ends at some places of a log weigh. */
  function BytesOf(log: seq<Record>, at: seq<nat>): nat
    requires forall n :: 0 <= n < |at| ==> at[n] < |log|
  {
    if at == [] then 0
    else
      BytesOf(log, Init(at))
      + (if log[Last(at)].body.ToolCallFinished? then log[Last(at)].body.resultBytes else 0)
  }

  lemma {:induction false} BytesEarlier(log: seq<Record>, at: seq<nat>)
    requires log != [] && forall n :: 0 <= n < |at| ==> at[n] < |log| - 1
    ensures BytesOf(Init(log), at) == BytesOf(log, at)
  {
    if at != [] {
      BytesEarlier(log, Init(at));
    }
  }

  /** The programs' part of the tool calls. */
  ghost predicate ProgramsMean(c: Calls, log: seq<Record>) {
    && ProgramSetMeans(c.programs, log) && ProgramOpenMeans(c.programOpen, log)
    && c.programCalls == |When(log, ByProgram)|
    && c.preservedBytes == BytesOf(log, When(log, LogTerms.Preserved))
  }

  /** A call starting last was made by a program exactly when its parent is a known one. */
  lemma {:induction false} MadeIs(programs: set<CallId>, log: seq<Record>)
    requires log != [] && ProgramSetMeans(programs, Init(log)) && Last(log).body.ToolCallStarted?
    ensures var b := Last(log).body;
            MadeByProgram(log, |log| - 1)
            <==> b.tool != "run_code" && b.parentCallId.Some? && b.parentCallId.value in programs
  {
    assert log[..|log| - 1] == Init(log);
  }

  lemma {:induction false} MadeEarlier(log: seq<Record>, i: nat)
    requires i < |log| - 1
    ensures MadeByProgram(Init(log), i) == MadeByProgram(log, i)
  {
    assert Init(log)[..i] == log[..i];
  }

  lemma {:induction false} ProgramSetNext(c: Calls, log: seq<Record>)
    requires log != [] && ProgramSetMeans(c.programs, Init(log))
    requires Last(log).body.ToolCallFinished? ==> Last(log).body.callId in c.open
    ensures ProgramSetMeans(CallsStep(c, Last(log)).programs, log)
  {
    ProgramEffects(c, Last(log));
    forall id ensures id in CallsStep(c, Last(log)).programs <==> Latest(log, RunCodeStarts(id)) >= 0 {
      CallKinds(log, id);
    }
  }

  lemma {:induction false} ProgramEffects(c: Calls, r: Record)
    requires r.body.ToolCallFinished? ==> r.body.callId in c.open
    ensures var c', b := CallsStep(c, r), r.body;
            var ofProgram := b.ToolCallStarted? && b.tool != "run_code" && b.parentCallId.Some?
                             && b.parentCallId.value in c.programs;
            && c'.programs == c.programs + (if b.ToolCallStarted? && b.tool == "run_code" then {b.callId} else {})
            && c'.programOpen == c.programOpen + (if ofProgram then {b.callId} else {})
                                 - (if b.ToolCallFinished? then {b.callId} else {})
            && c'.programCalls == c.programCalls + (if ofProgram then 1 else 0)
            && c'.preservedBytes
               == c.preservedBytes
                  + (if b.ToolCallFinished? && b.callId in c.programOpen && b.resultHandle.Some? then b.resultBytes
                     else 0)
  {
    if r.body.ToolCallStarted? {
      CallStartEffect(c, r);
    } else if r.body.ToolCallFinished? {
      CallEndEffect(c, r);
    } else {
      CallOtherEffect(c, r);
    }
  }

  lemma {:induction false} OneProgramOpen(programs: set<CallId>, open: set<CallId>, log: seq<Record>, id: CallId)
    requires log != [] && ProgramSetMeans(programs, Init(log)) && ProgramOpenMeans(open, Init(log))
    requires Last(log).body.ToolCallStarted? ==> Latest(Init(log), CallStarts(Last(log).body.callId)) < 0
    ensures var b := Last(log).body;
            var ofProgram := b.ToolCallStarted? && b.tool != "run_code" && b.parentCallId.Some?
                             && b.parentCallId.value in programs;
            ProgramOpenIn(log, id)
            <==> id in open + (if ofProgram then {b.callId} else {})
                       - (if b.ToolCallFinished? then {b.callId} else {})
  {
    var s := Latest(Init(log), CallStarts(id));
    CallKinds(log, id);
    if s >= 0 {
      MadeEarlier(log, s);
    }
    if Last(log).body.ToolCallStarted? {
      MadeIs(programs, log);
    }
    assert id in open <==> ProgramOpenIn(Init(log), id);
  }

  lemma {:induction false} ProgramOpenNext(c: Calls, log: seq<Record>)
    requires log != [] && ProgramSetMeans(c.programs, Init(log)) && ProgramOpenMeans(c.programOpen, Init(log))
    requires Last(log).body.ToolCallStarted? ==> Latest(Init(log), CallStarts(Last(log).body.callId)) < 0
    requires Last(log).body.ToolCallFinished? ==> Last(log).body.callId in c.open
    ensures ProgramOpenMeans(CallsStep(c, Last(log)).programOpen, log)
  {
    ProgramEffects(c, Last(log));
    forall id ensures id in CallsStep(c, Last(log)).programOpen <==> ProgramOpenIn(log, id) {
      OneProgramOpen(c.programs, c.programOpen, log, id);
    }
  }

  lemma {:induction false} ProgramCallsNext(c: Calls, log: seq<Record>)
    requires log != [] && ProgramSetMeans(c.programs, Init(log)) && c.programCalls == |When(Init(log), ByProgram)|
    requires Last(log).body.ToolCallFinished? ==> Last(log).body.callId in c.open
    ensures CallsStep(c, Last(log)).programCalls == |When(log, ByProgram)|
  {
    ProgramEffects(c, Last(log));
    if Last(log).body.ToolCallStarted? {
      MadeIs(c.programs, log);
    }
  }

  lemma {:induction false} PreservedIs(open: set<CallId>, log: seq<Record>)
    requires log != [] && ProgramOpenMeans(open, Init(log)) && Last(log).body.ToolCallFinished?
    requires OpenIn(Init(log), Last(log).body.callId)
    ensures Happens(log, |log| - 1, LogTerms.Preserved)
            <==> Last(log).body.callId in open && Last(log).body.resultHandle.Some?
  {
    var n, s := |log| - 1, Latest(Init(log), CallStarts(Last(log).body.callId));
    assert Latest(log[..n], CallStarts(log[n].body.callId)) == s by {
      assert log[..n] == Init(log);
    }
    MadeEarlier(log, s);
    assert Last(log).body.callId in open <==> ProgramOpenIn(Init(log), Last(log).body.callId);
  }

  lemma {:induction false} PreservedLast(open: set<CallId>, log: seq<Record>)
    requires log != [] && ProgramOpenMeans(open, Init(log))
    requires Last(log).body.ToolCallFinished? ==> OpenIn(Init(log), Last(log).body.callId)
    ensures When(log, LogTerms.Preserved)
            == When(Init(log), LogTerms.Preserved)
               + (if Last(log).body.ToolCallFinished? && Last(log).body.callId in open
                     && Last(log).body.resultHandle.Some?
                  then [|log| - 1] else [])
  {
    if Last(log).body.ToolCallFinished? {
      PreservedIs(open, log);
    }
  }

  lemma {:induction false} BytesSnoc(log: seq<Record>, at: seq<nat>, n: nat)
    requires (forall m :: 0 <= m < |at| ==> at[m] < |log|) && n < |log|
    ensures BytesOf(log, at + [n])
            == BytesOf(log, at) + (if log[n].body.ToolCallFinished? then log[n].body.resultBytes else 0)
  {
    assert Init(at + [n]) == at && Last(at + [n]) == n;
  }

  lemma {:induction false} PreservedNext(c: Calls, log: seq<Record>)
    requires log != [] && ProgramOpenMeans(c.programOpen, Init(log)) && OpenMeans(c.open, Init(log))
    requires Last(log).body.ToolCallFinished? ==> Last(log).body.callId in c.open
    requires c.preservedBytes == BytesOf(Init(log), When(Init(log), LogTerms.Preserved))
    ensures CallsStep(c, Last(log)).preservedBytes == BytesOf(log, When(log, LogTerms.Preserved))
  {
    var at := When(Init(log), LogTerms.Preserved);
    ProgramEffects(c, Last(log));
    BytesEarlier(log, at);
    PreservedLast(c.programOpen, log);
    BytesSnoc(log, at, |log| - 1);
  }

  lemma {:induction false} ProgramsNext(c: Calls, log: seq<Record>)
    requires log != [] && ProgramsMean(c, Init(log)) && OpenMeans(c.open, Init(log))
    requires Last(log).body.ToolCallStarted? ==> Latest(Init(log), CallStarts(Last(log).body.callId)) < 0
    requires Last(log).body.ToolCallFinished? ==> Last(log).body.callId in c.open
    ensures ProgramsMean(CallsStep(c, Last(log)), log)
  {
    ProgramSetNext(c, log);
    ProgramOpenNext(c, log);
    ProgramCallsNext(c, log);
    PreservedNext(c, log);
  }

  // -------------------------------------------------------------------- steps

  /** A step's record: what its latest start brought, and what the completion after that did. */
  predicate StepAs(s: StepRecord, start: Record, end: Option<Record>) {
    && start.body.StepStarted? && (end.Some? ==> end.value.body.StepCompleted?)
    && s.stepId == start.body.stepId && s.name == start.body.name && s.kind == start.body.kind
    && s.attemptNumber == start.body.attemptNumber && s.input == start.body.input && s.path == start.body.path
    && s.parentStepId == start.body.parentStepId && s.iteration == start.body.iteration
    && s.replayedFrom == start.body.replayedFrom && s.startedAt == start.at && s.startedSeq == start.seqNo
    && s.completed == end.Some?
    && s.output == (if end.Some? then end.value.body.output else None)
    && s.failure == (if end.Some? then end.value.body.failure else None)
    && s.childRunId == (if end.Some? then end.value.body.childRunId else None)
    && s.skipped == (end.Some? && end.value.body.skipped)
    && s.willRetry == (end.Some? && end.value.body.willRetry)
    && s.retryAt == (if end.Some? then end.value.body.retryAt else None)
    && s.completedAt == (if end.Some? then Some(end.value.at) else None)
    && s.completedSeq == (if end.Some? then Some(end.value.seqNo) else None)
  }

  /** The completion of the latest start of a step, if there is one. */
  function StepEnd(log: seq<Record>, id: StepId): (r: Option<Record>)
    ensures r.Some? ==> r.value.body.StepCompleted?
  {
    var i := Latest(log, StepEnds(id));
    if i > Latest(log, StepStarts(id)) then Some(log[i]) else None
  }

  ghost predicate StepMeans(steps: map<StepId, StepRecord>, log: seq<Record>, id: StepId) {
    var i := Latest(log, StepStarts(id));
    && (id in steps <==> i >= 0)
    && (id in steps ==> StepAs(steps[id], log[i], StepEnd(log, id)))
  }

  ghost predicate StepsMean(s: Steps, log: seq<Record>) {
    (forall id :: StepMeans(s.steps, log, id)) && s.starts == Count(log, AllStepStarts)
  }

  lemma {:induction false} StepKinds(log: seq<Record>, id: StepId)
    requires log != []
    ensures var b, n := Last(log).body, |log| - 1;
            && Latest(log, StepStarts(id))
               == (if b.StepStarted? && b.stepId == id then n else Latest(Init(log), StepStarts(id)))
            && Latest(log, StepEnds(id))
               == (if b.StepCompleted? && b.stepId == id then n else Latest(Init(log), StepEnds(id)))
  {
  }

  lemma {:induction false} OneStep(s: Steps, log: seq<Record>, id: StepId)
    requires log != [] && StepMeans(s.steps, Init(log), id)
    requires Last(log).body.StepCompleted? ==>
               Last(log).body.stepId in s.steps && !s.steps[Last(log).body.stepId].completed
    ensures StepMeans(StepsStep(s, Last(log)).steps, log, id)
  {
    StepKinds(log, id);
  }

  lemma {:induction false} StepsNext(s: Steps, log: seq<Record>)
    requires log != [] && StepsMean(s, Init(log))
    requires Last(log).body.StepCompleted? ==>
               Last(log).body.stepId in s.steps && !s.steps[Last(log).body.stepId].completed
    ensures StepsMean(StepsStep(s, Last(log)), log)
  {
    forall id ensures StepMeans(StepsStep(s, Last(log)).steps, log, id) {
      OneStep(s, log, id);
    }
  }

  // ---------------------------------------------------------------- waiting

  predicate PausedAs(p: Pause, r: Record) {
    && r.body.Suspended?
    && p.reason == Some(r.body.reason) && p.expiresAt == Some(r.body.expiresAt) && p.suspendedAt == Some(r.at)
    && p.pendingCall == r.body.pendingCallId && p.question == r.body.question && p.stepId == r.body.atStep
    && p.stepName == r.body.stepName && p.payloadSchema == r.body.payloadSchema && p.event == r.body.event
    && p.wakeAt == r.body.wakeAt
  }

  predicate Waits(log: seq<Record>) {
    Latest(log, Suspensions) > Latest(log, Resumes)
  }

  /** How long the suspensions answered at some places of a log had lasted. */
  function WaitedAt(log: seq<Record>, at: seq<nat>): nat
    requires forall n :: 0 <= n < |at| ==> at[n] < |log|
  {
    if at == [] then 0
    else
      var s := Answered(log, Last(at));
      WaitedAt(log, Init(at))
      + (if s >= 0 && log[Last(at)].at > log[s].at then log[Last(at)].at - log[s].at else 0)
  }

  lemma {:induction false} WaitedEarlier(log: seq<Record>, at: seq<nat>)
    requires log != [] && forall n :: 0 <= n < |at| ==> at[n] < |log| - 1
    ensures WaitedAt(Init(log), at) == WaitedAt(log, at)
  {
    if at != [] {
      WaitedEarlier(log, Init(at));
      AnsweredEarlier(log, Last(at));
    }
  }

  lemma {:induction false} AnsweredEarlier(log: seq<Record>, i: nat)
    requires i < |log| - 1
    ensures Answered(Init(log), i) == Answered(log, i)
  {
    assert Init(log)[..i] == log[..i];
  }

  ghost predicate PauseMeans(w: Waiting, log: seq<Record>) {
    && (w.suspended <==> Waits(log))
    && (if Waits(log) then PausedAs(w.pause, log[Latest(log, Suspensions)]) else w.pause == NO_PAUSE)
  }

  ghost predicate TimesMean(w: Waiting, log: seq<Record>) {
    && (w.resumedSinceAttempt <==> Latest(log, Resumes) > Latest(log, Attempts))
    && w.suspendedSeconds == WaitedAt(log, When(log, AnyResume))
  }

  lemma {:induction false} PauseKinds(log: seq<Record>)
    requires log != []
    ensures var b, n := Last(log).body, |log| - 1;
            && Latest(log, Suspensions) == (if b.Suspended? then n else Latest(Init(log), Suspensions))
            && Latest(log, Resumes) == (if b.Resumed? then n else Latest(Init(log), Resumes))
            && Latest(log, Attempts) == (if b.AttemptStarted? then n else Latest(Init(log), Attempts))
  {
  }

  /** Everything a record does to the waiting but for what it answers. */
  lemma {:induction false} WaitEffect(w: Waiting, r: Record)
    ensures var w', b := WaitingStep(w, r), r.body;
            && (b.Suspended? ==> w'.suspended && PausedAs(w'.pause, r))
            && (b.Resumed? ==> !w'.suspended && w'.pause == NO_PAUSE)
            && (!b.Suspended? && !b.Resumed? ==> w'.suspended == w.suspended && w'.pause == w.pause)
  {
  }

  lemma {:induction false} TimeEffect(w: Waiting, r: Record)
    ensures WaitingStep(w, r).resumedSinceAttempt
            == (r.body.Resumed? || (!r.body.AttemptStarted? && w.resumedSinceAttempt))
    ensures WaitingStep(w, r).suspendedSeconds
            == w.suspendedSeconds
               + (if r.body.Resumed? && w.pause.suspendedAt.Some? && r.at > w.pause.suspendedAt.value
                  then r.at - w.pause.suspendedAt.value else 0)
  {
  }

  lemma {:induction false} PauseNext(w: Waiting, log: seq<Record>)
    requires log != [] && PauseMeans(w, Init(log))
    ensures PauseMeans(WaitingStep(w, Last(log)), log)
  {
    PauseKinds(log);
    WaitEffect(w, Last(log));
  }

  lemma {:induction false} AnsweredLast(log: seq<Record>)
    requires log != []
    ensures Answered(log, |log| - 1) == Latest(Init(log), Suspensions)
  {
    assert log[..|log| - 1] == Init(log);
  }

  lemma {:induction false} AnyResumeNext(log: seq<Record>)
    requires log != []
    ensures When(log, AnyResume)
            == When(Init(log), AnyResume)
               + (if Last(log).body.Resumed? && Latest(Init(log), Suspensions) >= 0 then [|log| - 1] else [])
  {
    AnsweredLast(log);
  }

  lemma {:induction false} WaitedNext(w: Waiting, log: seq<Record>)
    requires log != [] && PauseMeans(w, Init(log)) && (Last(log).body.Resumed? ==> w.suspended)
    ensures WaitedAt(log, When(log, AnyResume))
            == WaitedAt(Init(log), When(Init(log), AnyResume))
               + (if Last(log).body.Resumed? && w.pause.suspendedAt.Some? && Last(log).at > w.pause.suspendedAt.value
                  then Last(log).at - w.pause.suspendedAt.value else 0)
  {
    var n, at := |log| - 1, When(Init(log), AnyResume);
    WaitedEarlier(log, at);
    AnyResumeNext(log);
    AnsweredLast(log);
    if Last(log).body.Resumed? {
      assert Init(at + [n]) == at && Last(at + [n]) == n;
    }
  }

  lemma {:induction false} TimesNext(w: Waiting, log: seq<Record>)
    requires log != [] && PauseMeans(w, Init(log)) && TimesMean(w, Init(log))
    requires Last(log).body.Resumed? ==> w.suspended
    ensures TimesMean(WaitingStep(w, Last(log)), log)
  {
    PauseKinds(log);
    TimeEffect(w, Last(log));
    WaitedNext(w, log);
  }

  // ----------------------------------------------- what resumes answered

  /** The payload a call got: that of the latest resume with one, of a suspension on the call. */
  ghost predicate PayloadsMean(payloads: map<CallId, Dict>, log: seq<Record>) {
    forall id :: PayloadMeans(payloads, log, id)
  }

  ghost predicate PayloadMeans(payloads: map<CallId, Dict>, log: seq<Record>, id: CallId) {
    var at := When(log, PayloadFor(id));
    && (id in payloads <==> at != [])
    && (id in payloads ==> log[Last(at)].body.Resumed? && payloads[id] == log[Last(at)].body.payload)
  }

  /** The decision on a call: that of the latest resume with one, of a suspension on the call. */
  ghost predicate DecisionsMean(made: map<CallId, bool>, log: seq<Record>) {
    forall id :: DecisionMeans(made, log, id)
  }

  ghost predicate DecisionMeans(made: map<CallId, bool>, log: seq<Record>, id: CallId) {
    var at := When(log, DecisionFor(id));
    && (id in made <==> at != [])
    && (id in made ==> log[Last(at)].body.Resumed? && log[Last(at)].body.approved == Some(made[id]))
  }

  predicate ResumedAs(a: StepResume, log: seq<Record>, i: nat)
    requires i < |log|
  {
    && ResumeOf(log, i)
    && a.reason == log[Answered(log, i)].body.reason && a.payload == log[i].body.payload
    && a.approved == log[i].body.approved && a.seqNo == log[i].seqNo
  }

  ghost predicate StepAnswersMean(resumes: map<StepId, seq<StepResume>>, log: seq<Record>, id: StepId) {
    var at := When(log, AnswerTo(id));
    && (id in resumes <==> at != [])
    && (id in resumes ==> ResumedAt(resumes[id], log, at))
  }

  ghost predicate AnswersMean(resumes: map<StepId, seq<StepResume>>, log: seq<Record>) {
    forall id :: StepAnswersMean(resumes, log, id)
  }

  ghost predicate ModeMeans(mode: bool, log: seq<Record>) {
    var at := When(log, ModeSet);
    if at == [] then !mode else ModeAt(log, Last(at)) == Some(mode)
  }

  /** The step mode a record sets. */
  function ModeAt(log: seq<Record>, i: nat): Option<bool>
    requires i < |log|
  {
    var b := log[i].body;
    if b.RunAdmitted? then Some(b.stepMode)
    else if b.Resumed? && "step_mode" in b.payload && b.payload["step_mode"].Bool?
    then Some(b.payload["step_mode"].b) else None
  }

  /** What the last record answers, when it resumes. */
  lemma {:induction false} EventLast(log: seq<Record>, w: Waiting)
    requires log != [] && PauseMeans(w, Init(log)) && (Last(log).body.Resumed? ==> w.suspended)
    ensures ResumeOf(log, |log| - 1) <==> Last(log).body.Resumed?
    ensures Last(log).body.Resumed? ==>
              Answered(log, |log| - 1) == Latest(Init(log), Suspensions)
              && PausedAs(w.pause, log[Answered(log, |log| - 1)])
  {
    AnsweredLast(log);
  }

  lemma {:induction false} PayloadEvent(log: seq<Record>, w: Waiting, id: CallId)
    requires log != [] && PauseMeans(w, Init(log)) && (Last(log).body.Resumed? ==> w.suspended)
    ensures Happens(log, |log| - 1, PayloadFor(id))
            <==> Last(log).body.Resumed? && |Last(log).body.payload| > 0 && w.pause.pendingCall == Some(id)
    ensures Happens(log, |log| - 1, DecisionFor(id))
            <==> Last(log).body.Resumed? && Last(log).body.approved.Some? && w.pause.pendingCall == Some(id)
  {
    EventLast(log, w);
  }

  lemma {:induction false} StepEvent(log: seq<Record>, w: Waiting, id: StepId)
    requires log != [] && PauseMeans(w, Init(log)) && (Last(log).body.Resumed? ==> w.suspended)
    ensures Happens(log, |log| - 1, AnswerTo(id)) <==> Last(log).body.Resumed? && w.pause.stepId == Some(id)
    ensures Happens(log, |log| - 1, ModeSet)
            <==> var b := Last(log).body;
                 || b.RunAdmitted?
                 || (b.Resumed? && w.pause.reason == Some(Breakpoint) && w.pause.stepId.Some?
                     && "step_mode" in b.payload && b.payload["step_mode"].Bool?)
  {
    EventLast(log, w);
  }

  lemma {:induction false} PayloadEffect(w: Waiting, r: Record)
    ensures WaitingStep(w, r).resumePayloads
            == if r.body.Resumed? && |r.body.payload| > 0 && w.pause.pendingCall.Some?
               then w.resumePayloads[w.pause.pendingCall.value := r.body.payload] else w.resumePayloads
  {
  }

  lemma {:induction false} AnswerEffect(w: Waiting, r: Record)
    ensures WaitingStep(w, r).stepResumes
            == if r.body.Resumed? && w.pause.stepId.Some? && w.pause.reason.Some?
               then w.stepResumes[w.pause.stepId.value := ResumesOf(w, w.pause.stepId.value)
                      + [StepResume(w.pause.reason.value, r.body.payload, r.body.approved, r.seqNo)]]
               else w.stepResumes
  {
  }

  lemma {:induction false} ModeEffect(w: Waiting, r: Record)
    ensures WaitingStep(w, r).stepMode
            == if r.body.RunAdmitted? then r.body.stepMode
               else if r.body.Resumed? && w.pause.stepId.Some? && w.pause.reason == Some(Breakpoint)
                       && "step_mode" in r.body.payload && r.body.payload["step_mode"].Bool?
               then r.body.payload["step_mode"].b else w.stepMode
  {
  }

  lemma {:induction false} PayloadsNext(w: Waiting, log: seq<Record>)
    requires log != [] && PauseMeans(w, Init(log)) && (Last(log).body.Resumed? ==> w.suspended)
    requires PayloadsMean(w.resumePayloads, Init(log))
    ensures PayloadsMean(WaitingStep(w, Last(log)).resumePayloads, log)
  {
    PayloadEffect(w, Last(log));
    forall id ensures PayloadMeans(WaitingStep(w, Last(log)).resumePayloads, log, id) {
      PayloadEvent(log, w, id);
      assert PayloadMeans(w.resumePayloads, Init(log), id);
    }
  }

  lemma {:induction false} DecisionsNext(made: map<CallId, bool>, w: Waiting, log: seq<Record>)
    requires log != [] && PauseMeans(w, Init(log)) && (Last(log).body.Resumed? ==> w.suspended)
    requires DecisionsMean(made, Init(log))
    ensures DecisionsMean(ApprovalsStep(made, w.pause, Last(log).body), log)
  {
    forall id ensures DecisionMeans(ApprovalsStep(made, w.pause, Last(log).body), log, id) {
      PayloadEvent(log, w, id);
      assert DecisionMeans(made, Init(log), id);
    }
  }

  lemma {:induction false} ResumedEarlier(log: seq<Record>, i: nat, a: StepResume)
    requires i < |log| - 1 && ResumedAs(a, Init(log), i)
    ensures ResumedAs(a, log, i)
  {
    AnsweredEarlier(log, i);
  }

  /** Resumes at some places, answering a step. */
  ghost predicate ResumedAt(answers: seq<StepResume>, log: seq<Record>, at: seq<nat>) {
    |answers| == |at| && forall n :: 0 <= n < |at| ==> at[n] < |log| && ResumedAs(answers[n], log, at[n])
  }

  lemma {:induction false} ResumedAtEarlier(answers: seq<StepResume>, log: seq<Record>, at: seq<nat>)
    requires log != [] && ResumedAt(answers, Init(log), at)
    ensures ResumedAt(answers, log, at)
  {
    forall n | 0 <= n < |at| ensures ResumedAs(answers[n], log, at[n]) {
      ResumedEarlier(log, at[n], answers[n]);
    }
  }

  lemma {:induction false} ResumedLast(w: Waiting, log: seq<Record>)
    requires log != [] && PauseMeans(w, Init(log)) && Last(log).body.Resumed? && w.suspended && w.pause.reason.Some?
    ensures var b := Last(log).body;
            ResumedAs(StepResume(w.pause.reason.value, b.payload, b.approved, Last(log).seqNo), log, |log| - 1)
  {
    EventLast(log, w);
  }

  lemma {:induction false} StepAnswersNext(w: Waiting, log: seq<Record>, id: StepId)
    requires log != [] && PauseMeans(w, Init(log)) && (Last(log).body.Resumed? ==> w.suspended)
    requires StepAnswersMean(w.stepResumes, Init(log), id)
    ensures StepAnswersMean(WaitingStep(w, Last(log)).stepResumes, log, id)
  {
    var at := When(Init(log), AnswerTo(id));
    AnswerEffect(w, Last(log));
    StepEvent(log, w, id);
    if id in w.stepResumes {
      ResumedAtEarlier(w.stepResumes[id], log, at);
    }
    if Last(log).body.Resumed? && w.pause.stepId == Some(id) {
      EventLast(log, w);
      ResumedLast(w, log);
      var b := Last(log).body;
      OneMoreAnswer(ResumesOf(w, id), StepResume(w.pause.reason.value, b.payload, b.approved, Last(log).seqNo), log, at,
                    |log| - 1);
    }
  }

  lemma {:induction false} OneMoreAnswer(
      answers: seq<StepResume>, a: StepResume, log: seq<Record>, at: seq<nat>, i: nat)
    requires ResumedAt(answers, log, at) && i < |log| && ResumedAs(a, log, i)
    ensures ResumedAt(answers + [a], log, at + [i])
  {
  }

  lemma {:induction false} ModeNext(w: Waiting, log: seq<Record>)
    requires log != [] && PauseMeans(w, Init(log)) && (Last(log).body.Resumed? ==> w.suspended)
    requires ModeMeans(w.stepMode, Init(log))
    ensures ModeMeans(WaitingStep(w, Last(log)).stepMode, log)
  {
    ModeEffect(w, Last(log));
    StepEvent(log, w, "");
  }

  // --------------------------------------------------------------- children

  /** A child: what its spawn brought, what its end brought if it ended, and its messages. */
  predicate ChildAs(c: ChildRun, spawn: Record, end: Option<Record>, messages: nat) {
    && spawn.body.SubagentSpawned? && (end.Some? ==> end.value.body.SubagentFinished?)
    && c.runId == spawn.body.child && c.name == spawn.body.name && c.callId == spawn.body.callId
    && c.versionHash == spawn.body.childVersionHash && c.depth == spawn.body.depth
    && c.background == spawn.body.background && c.tools == spawn.body.tools && c.model == spawn.body.model
    && c.spawnedSeq == spawn.seqNo
    && c.terminal == (if end.Some? then Some(end.value.body.terminal) else None)
    && c.output == (if end.Some? then end.value.body.output else None)
    && c.failure == (if end.Some? then end.value.body.failure else None)
    && c.usage == (if end.Some? then end.value.body.usage else NO_USAGE)
    && c.unreportedUsageCalls == (if end.Some? then end.value.body.unreportedUsageCalls else 0)
    && c.cost == (if end.Some? then end.value.body.cost else None)
    && c.unpricedModelCalls == (if end.Some? then end.value.body.unpricedModelCalls else 0)
    && c.finishedSeq == (if end.Some? then Some(end.value.seqNo) else None)
    && c.messagesSent == messages
  }

  function ChildEnd(log: seq<Record>, id: RunId): (r: Option<Record>)
    ensures r.Some? ==> r.value.body.SubagentFinished?
  {
    var i := Latest(log, Finishes(id));
    if i >= 0 then Some(log[i]) else None
  }

  ghost predicate ChildMeans(children: map<RunId, ChildRun>, log: seq<Record>, id: RunId) {
    var i := Latest(log, Spawns(id));
    && (id in children <==> i >= 0)
    && (id in children ==> ChildAs(children[id], log[i], ChildEnd(log, id), Count(log, Messages(id))))
    && (id !in children ==> Latest(log, Finishes(id)) < 0 && Count(log, Messages(id)) == 0)
  }

  ghost predicate FamilyMeans(f: Family, log: seq<Record>) {
    && (forall id :: ChildMeans(f.children, log, id))
    && |f.order| == Count(log, AllSpawns)
    && forall n :: 0 <= n < |f.order| ==> f.order[n] == log[Where(log, AllSpawns)[n]].body.child
  }

  lemma {:induction false} ChildKinds(log: seq<Record>, id: RunId)
    requires log != []
    ensures var b, n := Last(log).body, |log| - 1;
            && Latest(log, Spawns(id))
               == (if b.SubagentSpawned? && b.child == id then n else Latest(Init(log), Spawns(id)))
            && Latest(log, Finishes(id))
               == (if b.SubagentFinished? && b.child == id then n else Latest(Init(log), Finishes(id)))
            && Count(log, Messages(id))
               == Count(Init(log), Messages(id)) + (if b.SubagentMessaged? && b.child == id then 1 else 0)
  {
  }

  /** What passing its check says of a record about a child. */
  predicate ChildFits(children: map<RunId, ChildRun>, b: Body) {
    && (b.SubagentSpawned? ==> b.child !in children)
    && (b.SubagentMessaged? ==> b.child in children)
    && (b.SubagentFinished? ==> b.child in children && children[b.child].terminal.None?)
  }

  lemma {:induction false} ChildEffect(f: Family, r: Record, id: RunId)
    requires ChildFits(f.children, r.body)
    ensures var children, b := FamilyStep(f, r).children, r.body;
            if b.SubagentSpawned? && b.child == id then id in children && ChildAs(children[id], r, None, 0)
            else
              && (id in children <==> id in f.children)
              && (id in f.children ==>
                    if b.SubagentMessaged? && b.child == id
                    then children[id] == f.children[id].(messagesSent := f.children[id].messagesSent + 1)
                    else if b.SubagentFinished? && b.child == id then EndedAs(children[id], f.children[id], r)
                    else children[id] == f.children[id])
  {
  }

  predicate EndedAs(c: ChildRun, before: ChildRun, r: Record) {
    && r.body.SubagentFinished?
    && c == before.(terminal := Some(r.body.terminal), output := r.body.output, failure := r.body.failure,
                    usage := r.body.usage, unreportedUsageCalls := r.body.unreportedUsageCalls, cost := r.body.cost,
                    unpricedModelCalls := r.body.unpricedModelCalls, finishedSeq := Some(r.seqNo))
  }

  lemma {:induction false} ChildEnds(c: ChildRun, before: ChildRun, spawn: Record, r: Record, messages: nat)
    requires ChildAs(before, spawn, None, messages) && EndedAs(c, before, r)
    ensures ChildAs(c, spawn, Some(r), messages)
  {
  }

  lemma {:induction false} OneChildNext(f: Family, log: seq<Record>, id: RunId)
    requires log != [] && ChildMeans(f.children, Init(log), id) && ChildFits(f.children, Last(log).body)
    ensures ChildMeans(FamilyStep(f, Last(log)).children, log, id)
  {
    var r, i := Last(log), Latest(Init(log), Spawns(id));
    ChildKinds(log, id);
    ChildEffect(f, r, id);
    assert i >= 0 ==> log[i] == Init(log)[i];
    if r.body.SubagentFinished? && r.body.child == id {
      assert ChildEnd(Init(log), id) == None;
      ChildEnds(FamilyStep(f, r).children[id], f.children[id], log[i], r, Count(Init(log), Messages(id)));
    }
  }

  lemma {:induction false} OrderNext(f: Family, log: seq<Record>)
    requires log != [] && |f.order| == Count(Init(log), AllSpawns)
    requires forall n :: 0 <= n < |f.order| ==> f.order[n] == Init(log)[Where(Init(log), AllSpawns)[n]].body.child
    ensures var order, at := FamilyStep(f, Last(log)).order, Where(log, AllSpawns);
            |order| == |at| && forall n :: 0 <= n < |order| ==> order[n] == log[at[n]].body.child
  {
    assert FamilyStep(f, Last(log)).order
           == if Last(log).body.SubagentSpawned? then f.order + [Last(log).body.child] else f.order;
  }

  lemma {:induction false} FamilyNext(f: Family, log: seq<Record>)
    requires log != [] && FamilyMeans(f, Init(log)) && ChildFits(f.children, Last(log).body)
    ensures FamilyMeans(FamilyStep(f, Last(log)), log)
  {
    OrderNext(f, log);
    forall id ensures ChildMeans(FamilyStep(f, Last(log)).children, log, id) {
      OneChildNext(f, log, id);
    }
  }

  // ------------------------------------------------- queues, guards, the rest

  ghost predicate AbortMeans(q: Queues, log: seq<Record>) {
    var at := Where(log, Aborts);
    q.abortSeq == if at == [] then None else Some(log[at[0]].seqNo)
  }

  lemma {:induction false} AbortNext(q: Queues, l: Locals, log: seq<Record>)
    requires log != [] && AbortMeans(q, Init(log))
    ensures AbortMeans(QueuesStep(q, l, Last(log)), log)
  {
    assert QueuesStep(q, l, Last(log)).abortSeq
           == if Last(log).body.AbortRequested? && q.abortSeq.None? then Some(Last(log).seqNo) else q.abortSeq;
  }

  /** Failed calls to be retried, and the prompt of the last model call that finished. */
  ghost predicate RetriesMean(b: Bill, log: seq<Record>) {
    var i := Latest(log, ModelEnds);
    && b.transientRetriesUsed == Count(log, Retries)
    && b.lastPromptTokens == if i < 0 then 0 else PromptOf(log[i].body)
  }

  /** Everything the model read: fresh, from the cache, and written to it. */
  function PromptOf(b: Body): nat {
    if b.ModelCallFinished? then b.usage.input + b.usage.cacheRead + b.usage.cacheWrite else 0
  }

  lemma {:induction false} RetriesNext(b: Bill, log: seq<Record>)
    requires log != [] && RetriesMean(b, Init(log))
    ensures RetriesMean(BillStep(b, Last(log).body), log)
  {
    var r := Last(log).body;
    assert BillStep(b, r).transientRetriesUsed
           == b.transientRetriesUsed + (if r.ModelCallFailed? && r.willRetry then 1 else 0);
    assert BillStep(b, r).lastPromptTokens == if r.ModelCallFinished? then PromptOf(r) else b.lastPromptTokens;
  }

  ghost predicate ShownMeans(s: Shown, log: seq<Record>) {
    var i, at := Latest(log, TaskLists), Where(log, Components);
    && s.tasks == (if i < 0 then [] else log[i].body.tasks)
    && |s.components| == |at| && forall n :: 0 <= n < |at| ==> s.components[n] == log[at[n]].body.component
  }

  lemma {:induction false} ShownNext(s: Shown, log: seq<Record>)
    requires log != [] && ShownMeans(s, Init(log))
    ensures ShownMeans(ShownStep(s, Last(log).body), log)
  {
  }

  predicate EnqueuedAs(e: Entry, r: Record) {
    && r.body.QueueEnqueued?
    && e.entryId == r.body.entryId && e.queue == r.body.queue && e.payload == r.body.payload
    && e.enqueuedSeq == r.seqNo
  }

  ghost predicate EntryMeans(l: Locals, log: seq<Record>, id: string) {
    var i := Latest(log, Enqueues(id));
    && (id in l.enqueued <==> i >= 0)
    && (id in l.enqueued ==> EnqueuedAs(l.enqueued[id], log[i]))
    && (id in l.cancelled <==> Latest(log, Cancels(id)) >= 0)
    && (id in l.consumed <==> Latest(log, Consumes(id)) >= 0)
  }

  predicate CallLocalMeans(l: Locals, log: seq<Record>, id: CallId) {
    && (id in l.started <==> Latest(log, CallStarts(id)) >= 0)
    && (id in l.settled <==> Latest(log, CallEnds(id)) >= 0)
  }

  ghost predicate CallLocalsMean(l: Locals, log: seq<Record>) {
    forall id :: CallLocalMeans(l, log, id)
  }

  ghost predicate LocalsMean(l: Locals, log: seq<Record>) {
    CallLocalsMean(l, log) && forall id :: EntryMeans(l, log, id)
  }

  lemma {:induction false} EntryKinds(log: seq<Record>, id: string)
    requires log != []
    ensures var b, n := Last(log).body, |log| - 1;
            && Latest(log, Enqueues(id))
               == (if b.QueueEnqueued? && b.entryId == id then n else Latest(Init(log), Enqueues(id)))
            && Latest(log, Cancels(id))
               == (if b.QueueCancelled? && b.entryId == id then n else Latest(Init(log), Cancels(id)))
            && Latest(log, Consumes(id))
               == (if b.QueueConsumed? && b.entryId == id then n else Latest(Init(log), Consumes(id)))
  {
  }

  lemma {:induction false} OneEntryNext(l: Locals, log: seq<Record>, id: string)
    requires log != [] && EntryMeans(l, Init(log), id)
    ensures EntryMeans(LocalsStep(l, Last(log)), log, id)
  {
    EntryKinds(log, id);
  }

  lemma {:induction false} OneCallLocalNext(l: Locals, log: seq<Record>, id: CallId)
    requires log != [] && CallLocalMeans(l, Init(log), id)
    ensures CallLocalMeans(LocalsStep(l, Last(log)), log, id)
  {
    CallKinds(log, id);
  }

  lemma {:induction false} CallLocalsNext(l: Locals, log: seq<Record>)
    requires log != [] && CallLocalsMean(l, Init(log))
    ensures CallLocalsMean(LocalsStep(l, Last(log)), log)
  {
    forall id ensures CallLocalMeans(LocalsStep(l, Last(log)), log, id) {
      OneCallLocalNext(l, log, id);
    }
  }

  lemma {:induction false} LocalsNext(l: Locals, log: seq<Record>)
    requires log != [] && LocalsMean(l, Init(log))
    ensures LocalsMean(LocalsStep(l, Last(log)), log)
  {
    CallLocalsNext(l, log);
    forall id ensures EntryMeans(LocalsStep(l, Last(log)), log, id) {
      OneEntryNext(l, log, id);
    }
  }

  // --------------------------------------------------------------- all of it

  ghost predicate CallsMean(c: Calls, log: seq<Record>) {
    OpenMeans(c.open, log) && ResultsMean(c.results, log) && HandlesMean(c.handles, log) && ProgramsMean(c, log)
  }

  ghost predicate WaitingMeans(w: Waiting, log: seq<Record>) {
    && PauseMeans(w, log) && TimesMean(w, log) && PayloadsMean(w.resumePayloads, log)
    && AnswersMean(w.stepResumes, log) && ModeMeans(w.stepMode, log)
  }

  /** The state and the bookkeeping that a log leads to, each part said from the log. */
  ghost predicate Means(f: Fold, log: seq<Record>) {
    StateMeansParts(f.state, log) && LocalsMean(f.locals, log)
  }

  ghost predicate StateMeansParts(s: State, log: seq<Record>) {
    && LifeMeans(s.life, log) && TurnsMean(s.turns, log) && CallsMean(s.calls, log) && StepsMean(s.steps, log)
    && WaitingMeans(s.waiting, log) && DecisionsMean(s.approvals, log) && FamilyMeans(s.family, log)
    && AbortMeans(s.queues, log) && RetriesMean(s.bill, log) && ShownMeans(s.shown, log)
  }

  /** What passing its check says of a record. */
  ghost predicate Fits(f: Fold, b: Body) {
    var s := f.state;
    && (b.AttemptStarted? ==> b.attemptNumber == s.life.attemptCount + 1)
    && (b.TurnStarted? ==> b.turn == s.turns.turn + 1)
    && (b.ToolCallStarted? ==> b.callId !in f.locals.started)
    && (b.ToolCallFinished? ==> b.callId in s.calls.open)
    && (b.StepCompleted? ==> b.stepId in s.steps.steps && !s.steps.steps[b.stepId].completed)
    && (b.Resumed? ==> s.waiting.suspended)
    && ChildFits(s.family.children, b)
  }

  lemma {:induction false} CheckedFits(f: Fold, r: Record)
    requires Check(f, r).None?
    ensures Fits(f, r.body)
  {
  }

  lemma {:induction false} CallsNext(f: Fold, log: seq<Record>)
    requires log != [] && CallsMean(f.state.calls, Init(log)) && LocalsMean(f.locals, Init(log))
    requires Fits(f, Last(log).body)
    ensures CallsMean(CallsStep(f.state.calls, Last(log)), log)
  {
    var c := f.state.calls;
    if Last(log).body.ToolCallStarted? {
      NewCall(f.locals, Init(log), Last(log).body.callId);
    }
    OpenNext(c, log);
    ResultsNext(c, log);
    HandlesNext(c, log);
    ProgramsNext(c, log);
  }

  lemma {:induction false} NewCall(l: Locals, log: seq<Record>, id: CallId)
    requires CallLocalsMean(l, log) && id !in l.started
    ensures Latest(log, CallStarts(id)) < 0
  {
    assert CallLocalMeans(l, log, id);
  }

  lemma {:induction false} WaitingNext(w: Waiting, log: seq<Record>)
    requires log != [] && WaitingMeans(w, Init(log)) && (Last(log).body.Resumed? ==> w.suspended)
    ensures WaitingMeans(WaitingStep(w, Last(log)), log)
  {
    PauseNext(w, log);
    TimesNext(w, log);
    PayloadsNext(w, log);
    ModeNext(w, log);
    forall id ensures StepAnswersMean(WaitingStep(w, Last(log)).stepResumes, log, id) {
      StepAnswersNext(w, log, id);
    }
  }

  lemma {:induction false} MeansNext(f: Fold, g: Fold, log: seq<Record>)
    requires log != [] && Means(f, Init(log)) && Step(f, Last(log)) == Accepted(g)
    ensures Means(g, log)
  {
    var s, r := f.state, Last(log);
    Parts(f, r);
    CheckedFits(f, r);
    LifeNext(s.life, log);
    TurnsNext(s.turns, log);
    CallsNext(f, log);
    StepsNext(s.steps, log);
    WaitingNext(s.waiting, log);
    DecisionsNext(s.approvals, s.waiting, log);
    FamilyNext(s.family, log);
    AbortNext(s.queues, f.locals, log);
    RetriesNext(s.bill, log);
    ShownNext(s.shown, log);
    LocalsNext(f.locals, log);
  }

  lemma {:induction false} FreshLocals(runId: RunId, scope: Scope)
    ensures Fresh(runId, scope) == Fold(FreshState(runId, scope), Locals({}, {}, map[], {}, {}))
  {
    assert ById([]) == map[];
  }

  lemma {:induction false} NoCalls(c: Calls)
    requires c == Calls(map[], [], map[], {}, {}, 0, 0)
    ensures CallsMean(c, [])
  {
  }

  lemma {:induction false} NoWaiting(w: Waiting)
    requires w == Waiting(false, NO_PAUSE, false, 0, map[], map[], false)
    ensures WaitingMeans(w, [])
  {
  }

  lemma {:induction false} NoLocals(l: Locals)
    requires l == Locals({}, {}, map[], {}, {})
    ensures LocalsMean(l, [])
  {
  }

  lemma {:induction false} MeansNothing(runId: RunId, scope: Scope)
    ensures Means(Fresh(runId, scope), [])
  {
    FreshLocals(runId, scope);
    NoLocals(Fresh(runId, scope).locals);
    NothingMeans(FreshState(runId, scope));
  }

  lemma {:induction false} NothingMeans(s: State)
    requires s == FreshState(s.runId, s.scope)
    ensures StateMeansParts(s, [])
  {
    NoCalls(s.calls);
    NoWaiting(s.waiting);
  }

  /** Every part of the state of an accepted log is what the log says it is. */
  lemma {:induction false} StateMeans(runId: RunId, scope: Scope, log: seq<Record>)
    requires Accepts(Fresh(runId, scope), log)
    ensures Means(After(Fresh(runId, scope), log), log)
  {
    if log == [] {
      MeansNothing(runId, scope);
    } else {
      Before(runId, scope, log);
      StateMeans(runId, scope, Init(log));
      MeansNext(After(Fresh(runId, scope), Init(log)), After(Fresh(runId, scope), log), log);
    }
  }
}
