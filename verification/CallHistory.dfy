/** What the log itself says about tool calls, and that the fold's open calls say the same. */
module CallHistory {
  import opened Values
  import opened Records
  import opened Reducer
  import opened SplitFold

  /** The record that started a call: the latest of that id. */
  function StartOf(log: seq<Record>, id: CallId): Option<Record> {
    if log == [] then None
    else if Last(log).body.ToolCallStarted? && Last(log).body.callId == id then Some(Last(log))
    else StartOf(Init(log), id)
  }

  function OpenedBy(r: Record): OpenToolCall
    requires r.body.ToolCallStarted?
  {
    var b := r.body;
    OpenToolCall(b.callId, b.tool, b.arguments, b.turn, b.atStep, b.interruptible, b.safeToRetry, r.at)
  }

  lemma {:induction false} StartOfIs(log: seq<Record>, id: CallId)
    ensures StartOf(log, id).Some? ==>
              && StartOf(log, id).value.body.ToolCallStarted?
              && StartOf(log, id).value.body.callId == id
              && StartOf(log, id).value in log
  {
    if log != [] {
      StartOfIs(Init(log), id);
    }
  }

  /** Every started call has its start in the log, and every open call is as that start left it. */
  ghost predicate StartsKnown(c: Calls, l: Locals, log: seq<Record>) {
    && (forall id :: id in l.started <==> StartOf(log, id).Some?)
    && forall id :: id in c.open ==>
         StartOf(log, id).Some? && StartOf(log, id).value.body.ToolCallStarted?
         && c.open[id] == OpenedBy(StartOf(log, id).value)
  }

  /** The open calls after one record. */
  lemma OpenEffect(f: Fold, r: Record)
    requires Step(f, r).Accepted?
    ensures var open, open' := f.state.calls.open, Step(f, r).value.state.calls.open;
            && (r.body.ToolCallStarted? ==> open' == open[r.body.callId := OpenedBy(r)])
            && (r.body.ToolCallFinished? ==> r.body.callId in open && open' == open - {r.body.callId})
            && (!r.body.ToolCallStarted? && !r.body.ToolCallFinished? ==> open' == open)
  {
  }

  lemma StartsKnownStep(f: Fold, g: Fold, log: seq<Record>)
    requires log != [] && StartsKnown(f.state.calls, f.locals, Init(log)) && Step(f, Last(log)) == Accepted(g)
    ensures StartsKnown(g.state.calls, g.locals, log)
  {
    CallEffect(f, Last(log));
    OpenEffect(f, Last(log));
  }

  lemma {:induction false} StartsKnownAlways(runId: RunId, scope: Scope, log: seq<Record>)
    requires Accepts(Fresh(runId, scope), log)
    ensures StartsKnown(After(Fresh(runId, scope), log).state.calls, After(Fresh(runId, scope), log).locals, log)
  {
    if log != [] {
      RunSnoc(Fresh(runId, scope), log);
      StartsKnownAlways(runId, scope, Init(log));
      StartsKnownStep(After(Fresh(runId, scope), Init(log)), After(Fresh(runId, scope), log), log);
    }
  }

  /** The call a finish record answers, when it answers one that is open. */
  lemma FinishAnswers(runId: RunId, scope: Scope, log: seq<Record>)
    requires Accepts(Fresh(runId, scope), log) && log != [] && Last(log).body.ToolCallFinished?
    ensures var f, id := After(Fresh(runId, scope), Init(log)), Last(log).body.callId;
            && Accepts(Fresh(runId, scope), Init(log))
            && id in f.state.calls.open
            && StartOf(Init(log), id).Some? && StartOf(Init(log), id).value.body.ToolCallStarted?
            && f.state.calls.open[id] == OpenedBy(StartOf(Init(log), id).value)
  {
    RunSnoc(Fresh(runId, scope), log);
    StartsKnownAlways(runId, scope, Init(log));
    OpenEffect(After(Fresh(runId, scope), Init(log)), Last(log));
  }
}
