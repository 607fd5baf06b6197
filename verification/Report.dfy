/** The report's rows over a log the fold accepts: every lookup is answered, each row is the
    start and the end that belong together, and what is unanswered is what the fold calls open. */
module Report {
  import opened Values
  import opened Records
  import opened Reducer
  import opened Joins
  import opened StepHistory
  import opened CallHistory
  import opened SplitFold
  import Billing

  function EventsOf<K>(log: seq<Record>, event: Record -> Event<K, Record>): seq<Event<K, Record>> {
    if log == [] then [] else EventsOf(Init(log), event) + [event(Last(log))]
  }

  function ModelEvent(r: Record): Event<nat, Record> {
    match r.body
    case ModelCallStarted(turn, _) => Start(turn, r)
    case ModelCallFinished(turn, _, _, _, _, _, _) => End(turn, r)
    case ModelCallFailed(turn, _, _, _) => End(turn, r)
    case _ => Other
  }

  function ToolEvent(r: Record): Event<CallId, Record> {
    match r.body
    case ToolCallStarted(id, _, _, _, _, _, _, _) => Start(id, r)
    case ToolCallFinished(id, _, _, _, _, _, _, _, _, _) => End(id, r)
    case _ => Other
  }

  function StepEvent(r: Record): Event<StepId, Record> {
    match r.body
    case StepStarted(id, _, _, _, _, _, _, _, _) => Start(id, r)
    case StepCompleted(id, _, _, _, _, _, _) => End(id, r)
    case _ => Other
  }

  /** Suspensions share one key: at most one is ever open. */
  function PauseEvent(r: Record): Event<(), Record> {
    match r.body
    case Suspended(_, _, _, _, _, _, _, _, _) => Start((), r)
    case Resumed(_, _) => End((), r)
    case _ => Other
  }

  lemma EventsSnoc<K>(log: seq<Record>, event: Record -> Event<K, Record>)
    requires log != []
    ensures EventsOf(log, event) != []
    ensures Init(EventsOf(log, event)) == EventsOf(Init(log), event)
    ensures Last(EventsOf(log, event)) == event(Last(log))
  {
  }

  // ------------------------------------------------------------ model calls

  lemma TurnEffect(f: Fold, r: Record)
    requires Step(f, r).Accepted?
    ensures var t, t', e := f.state.turns, Step(f, r).value.state.turns, ModelEvent(r);
            && (e.Start? ==> e.key == t.turn && t.turnOpen && !t.callOpen && t' == t.(callOpen := true))
            && (e.End? ==> e.key == t.turn && t.callOpen && t' == Turns(t.turn, false, false))
            && (e.Other? ==> t' == t || t' == Turns(t.turn, false, false)
                             || (!t.turnOpen && t' == Turns(t.turn + 1, true, t.callOpen)))
  {
  }

  /** What the fold's turn counters know of the model calls so far. */
  ghost predicate TurnsKnown(t: Turns, events: seq<Event<nat, Record>>) {
    && Paired(events) && Once(events)
    && (forall n: nat :: Started(events, n) ==> n <= t.turn && (n == t.turn && t.turnOpen ==> t.callOpen))
    && (t.callOpen ==> t.turnOpen && Open(events, t.turn))
  }

  lemma TurnsKnownNext(t: Turns, t': Turns, events: seq<Event<nat, Record>>)
    requires events != [] && TurnsKnown(t, Init(events))
    requires var e := Last(events);
             && (e.Start? ==> e.key == t.turn && t.turnOpen && !t.callOpen && t' == t.(callOpen := true))
             && (e.End? ==> e.key == t.turn && t.callOpen && t' == Turns(t.turn, false, false))
             && (e.Other? ==> t' == t || t' == Turns(t.turn, false, false)
                              || (!t.turnOpen && t' == Turns(t.turn + 1, true, t.callOpen)))
    ensures TurnsKnown(t', events)
  {
    forall n: nat | Started(events, n) ensures n <= t'.turn && (n == t'.turn && t'.turnOpen ==> t'.callOpen) {
      assert Started(Init(events), n) || (Last(events).Start? && Last(events).key == n);
    }
  }

  /** A turn number belongs to one model call: it starts once, and its end comes after its
      start, once. So every row finds its partner. */
  lemma {:induction false} ModelCallsPaired(runId: RunId, scope: Scope, log: seq<Record>)
    requires Accepts(Fresh(runId, scope), log)
    ensures TurnsKnown(After(Fresh(runId, scope), log).state.turns, EventsOf(log, ModelEvent))
  {
    if log != [] {
      var start := Fresh(runId, scope);
      RunSnoc(start, log);
      ModelCallsPaired(runId, scope, Init(log));
      TurnEffect(After(start, Init(log)), Last(log));
      EventsSnoc(log, ModelEvent);
      TurnsKnownNext(After(start, Init(log)).state.turns, After(start, log).state.turns, EventsOf(log, ModelEvent));
    }
  }

  /** The numbers turns were started with, oldest first. */
  function TurnNumbers(log: seq<Record>): seq<nat> {
    if log == [] then []
    else if Last(log).body.TurnStarted? then TurnNumbers(Init(log)) + [Last(log).body.turn]
    else TurnNumbers(Init(log))
  }

  lemma TurnStartEffect(f: Fold, r: Record)
    requires Step(f, r).Accepted?
    ensures r.body.TurnStarted? ==> r.body.turn == f.state.turns.turn + 1
    ensures Step(f, r).value.state.turns.turn == f.state.turns.turn + (if r.body.TurnStarted? then 1 else 0)
  {
  }

  /** Turns are numbered 1, 2, 3 and so on, so each number is started once. */
  lemma {:induction false} TurnsCountUp(runId: RunId, scope: Scope, log: seq<Record>)
    requires Accepts(Fresh(runId, scope), log)
    ensures forall i :: 0 <= i < |TurnNumbers(log)| ==> TurnNumbers(log)[i] == i + 1
    ensures After(Fresh(runId, scope), log).state.turns.turn == |TurnNumbers(log)|
  {
    if log != [] {
      RunSnoc(Fresh(runId, scope), log);
      TurnsCountUp(runId, scope, Init(log));
      TurnStartEffect(After(Fresh(runId, scope), Init(log)), Last(log));
    }
  }

  function ModelStarts(log: seq<Record>): nat {
    if log == [] then 0 else ModelStarts(Init(log)) + (if Last(log).body.ModelCallStarted? then 1 else 0)
  }

  lemma {:induction false} ModelCounts(log: seq<Record>)
    ensures Starts(EventsOf(log, ModelEvent)) == ModelStarts(log)
    ensures Ends(EventsOf(log, ModelEvent)) == Billing.FinishedCalls(log) + Billing.FailedCalls(log)
  {
    if log != [] {
      EventsSnoc(log, ModelEvent);
      ModelCounts(Init(log));
      ModelEventIs(Last(log));
    }
  }

  lemma ModelEventIs(r: Record)
    ensures ModelEvent(r).Start? <==> r.body.ModelCallStarted?
    ensures ModelEvent(r).End? <==> r.body.ModelCallFinished? || r.body.ModelCallFailed?
  {
  }

  /** Model calls that started are finished, failed or dangling: one row each, and the rows
      without an end are exactly what is left over. */
  lemma ModelRowsAddUp(runId: RunId, scope: Scope, log: seq<Record>)
    requires Accepts(Fresh(runId, scope), log)
    ensures var rows, b := Rows(EventsOf(log, ModelEvent)), After(Fresh(runId, scope), log).state.bill;
            && DistinctKeys(rows)
            && |rows| == ModelStarts(log)
            && EndedRows(rows) == b.modelCalls + b.failedModelCalls
  {
    ModelCallsPaired(runId, scope, log);
    RowsCount(EventsOf(log, ModelEvent));
    OnceDistinct(EventsOf(log, ModelEvent));
    ModelCounts(log);
    Billing.Conserved(runId, scope, log);
  }

  // ------------------------------------------------------------- tool calls

  /** Open to the join is open to the fold, and started to the join is started to the fold. */
  ghost predicate CallsKnownToJoin(c: Calls, l: Locals, events: seq<Event<CallId, Record>>) {
    && Paired(events) && Once(events)
    && (forall id :: Open(events, id) <==> id in c.open)
    && (forall id :: Started(events, id) <==> id in l.started)
  }

  lemma CallsKnownNext(f: Fold, g: Fold, log: seq<Record>)
    requires log != [] && Step(f, Last(log)) == Accepted(g)
    requires CallsKnownToJoin(f.state.calls, f.locals, EventsOf(Init(log), ToolEvent))
    ensures CallsKnownToJoin(g.state.calls, g.locals, EventsOf(log, ToolEvent))
  {
    CallEffect(f, Last(log));
    OpenEffect(f, Last(log));
    EventsSnoc(log, ToolEvent);
  }

  lemma {:induction false} ToolCallsPaired(runId: RunId, scope: Scope, log: seq<Record>)
    requires Accepts(Fresh(runId, scope), log)
    ensures var f := After(Fresh(runId, scope), log);
            CallsKnownToJoin(f.state.calls, f.locals, EventsOf(log, ToolEvent))
  {
    if log != [] {
      var start := Fresh(runId, scope);
      RunSnoc(start, log);
      ToolCallsPaired(runId, scope, Init(log));
      CallsKnownNext(After(start, Init(log)), After(start, log), log);
    }
  }

  /** One row per call id; the rows without an answer are exactly the fold's open calls. */
  lemma UnansweredAreOpen(runId: RunId, scope: Scope, log: seq<Record>)
    requires Accepts(Fresh(runId, scope), log)
    ensures var rows, open := Rows(EventsOf(log, ToolEvent)), After(Fresh(runId, scope), log).state.calls.open;
            && DistinctKeys(rows)
            && (forall i :: 0 <= i < |rows| ==> (rows[i].end.None? <==> rows[i].key in open))
            && (forall id :: id in open ==> exists i :: 0 <= i < |rows| && rows[i].key == id)
  {
    var events := EventsOf(log, ToolEvent);
    ToolCallsPaired(runId, scope, log);
    OnceRows(events);
    forall id | Open(events, id) ensures exists i :: 0 <= i < |Rows(events)| && Rows(events)[i].key == id {
      OpenStarted(events, id);
      OpenRow(events, id);
      assert Rows(events)[LastRow(Rows(events), id)].key == id;
    }
  }

  // ------------------------------------------------------------------ steps

  ghost predicate StepsKnown(s: Steps, events: seq<Event<StepId, Record>>) {
    Paired(events) && forall id :: Open(events, id) <==> id in s.steps && !s.steps[id].completed
  }

  lemma StepsKnownNext(f: Fold, g: Fold, log: seq<Record>)
    requires log != [] && Step(f, Last(log)) == Accepted(g)
    requires StepsKnown(f.state.steps, EventsOf(Init(log), StepEvent))
    ensures StepsKnown(g.state.steps, EventsOf(log, StepEvent))
  {
    StepsEffect(f, Last(log));
    EventsSnoc(log, StepEvent);
  }

  /** A step's row stays unanswered exactly while the fold has the step begun and not completed;
      a restart before completion leaves the abandoned attempt's row unanswered for good. */
  lemma {:induction false} StepsPaired(runId: RunId, scope: Scope, log: seq<Record>)
    requires Accepts(Fresh(runId, scope), log)
    ensures StepsKnown(After(Fresh(runId, scope), log).state.steps, EventsOf(log, StepEvent))
  {
    if log != [] {
      var start := Fresh(runId, scope);
      RunSnoc(start, log);
      StepsPaired(runId, scope, Init(log));
      StepsKnownNext(After(start, Init(log)), After(start, log), log);
    }
  }

  // ------------------------------------------------------------ suspensions

  lemma WaitEffect(f: Fold, r: Record)
    requires Step(f, r).Accepted?
    ensures var w, w', e := f.state.waiting, Step(f, r).value.state.waiting, PauseEvent(r);
            && (e.Start? ==> !w.suspended && w'.suspended)
            && (e.End? ==> w.suspended && !w'.suspended)
            && (e.Other? ==> w'.suspended == w.suspended)
  {
  }

  /** Suspensions and resumes alternate, and one is open exactly while the fold says suspended. */
  lemma {:induction false} SuspensionsPaired(runId: RunId, scope: Scope, log: seq<Record>)
    requires Accepts(Fresh(runId, scope), log)
    ensures Paired(EventsOf(log, PauseEvent))
    ensures Open(EventsOf(log, PauseEvent), ()) <==> After(Fresh(runId, scope), log).state.waiting.suspended
  {
    if log != [] {
      var start := Fresh(runId, scope);
      RunSnoc(start, log);
      SuspensionsPaired(runId, scope, Init(log));
      WaitEffect(After(start, Init(log)), Last(log));
      EventsSnoc(log, PauseEvent);
    }
  }

  // -------------------------------------------------------------- the report

  /** `_model_calls`, `_tool_calls` and `_steps` over a log the fold accepted: no lookup fails. */
  method ReportRows(ghost runId: RunId, ghost scope: Scope, log: seq<Record>)
    returns (models: seq<Row<nat, Record>>, tools: seq<Row<CallId, Record>>, steps: seq<Row<StepId, Record>>)
    requires Accepts(Fresh(runId, scope), log)
    ensures models == Rows(EventsOf(log, ModelEvent))
    ensures tools == Rows(EventsOf(log, ToolEvent))
    ensures steps == Rows(EventsOf(log, StepEvent))
  {
    ModelCallsPaired(runId, scope, log);
    ToolCallsPaired(runId, scope, log);
    StepsPaired(runId, scope, log);
    var m := JoinRows(EventsOf(log, ModelEvent), false);
    var t := JoinRows(EventsOf(log, ToolEvent), false);
    var s := JoinRows(EventsOf(log, StepEvent), true);
    return m.value, t.value, s.value;
  }

  /** `_suspensions`: a resume with nothing open is passed over, which an accepted log never has. */
  method Suspensions(ghost runId: RunId, ghost scope: Scope, log: seq<Record>)
    returns (rows: seq<Row<(), Record>>)
    requires Accepts(Fresh(runId, scope), log)
    ensures rows == Rows(EventsOf(log, PauseEvent))
  {
    SuspensionsPaired(runId, scope, log);
    rows := PairPauses(log);
  }

  /** The loop of `_suspensions`. */
  method PairPauses(log: seq<Record>) returns (rows: seq<Row<(), Record>>)
    requires Paired(EventsOf(log, PauseEvent))
    ensures rows == Rows(EventsOf(log, PauseEvent))
  {
    rows := [];
    var open: Option<nat> := None;
    var i := 0;
    while i < |log|
      invariant 0 <= i <= |log|
      invariant PointsAtOpen(EventsOf(log[..i], PauseEvent), rows, open)
    {
      ghost var before := EventsOf(log[..i], PauseEvent);
      PausesUpTo(log, i);
      PauseNext(before, PauseEvent(log[i]), rows, open);
      if log[i].body.Suspended? {
        open := Some(|rows|);
        rows := rows + [Row((), log[i], None)];
      } else if log[i].body.Resumed? && open.Some? {
        rows := rows[open.value := Ended(rows[open.value], log[i])];
        open := None;
      }
      i := i + 1;
    }
    assert log[..i] == log;
  }

  /** The rows so far, and the position of the one still waiting. */
  ghost predicate PointsAtOpen(events: seq<Event<(), Record>>, rows: seq<Row<(), Record>>, open: Option<nat>) {
    && rows == Rows(events)
    && (open.Some? <==> Open(events, ()))
    && (open.Some? ==> open.value == LastRow(rows, ()) && open.value < |rows|)
  }

  lemma PauseNext(before: seq<Event<(), Record>>, e: Event<(), Record>, rows: seq<Row<(), Record>>, open: Option<nat>)
    requires PointsAtOpen(before, rows, open)
    requires (!e.Other? ==> e.key == ()) && (e.End? ==> Open(before, ()))
    ensures e.Start? ==> PointsAtOpen(before + [e], rows + [Row((), e.start, None)], Some(|rows|))
    ensures e.End? ==>
              open.Some? && PointsAtOpen(before + [e], rows[open.value := Ended(rows[open.value], e.end)], None)
    ensures e.Other? ==> PointsAtOpen(before + [e], rows, open)
  {
    assert Init(before + [e]) == before;
    if e.End? {
      RowsEnd(before, (), e.end);
    } else {
      RowsStart(before, e);
      if e.Start? {
        LastRowAppend(rows, Row((), e.start, None), ());
      }
    }
  }

  lemma PausesUpTo(log: seq<Record>, i: nat)
    requires Paired(EventsOf(log, PauseEvent)) && i < |log|
    ensures EventsOf(log[..i + 1], PauseEvent) == EventsOf(log[..i], PauseEvent) + [PauseEvent(log[i])]
    ensures log[i].body.Resumed? ==> Open(EventsOf(log[..i], PauseEvent), ())
  {
    EventsNext(log, i);
    if log[i].body.Resumed? {
      PausedPrefix(log, i);
    }
  }

  lemma EventsNext(log: seq<Record>, i: nat)
    requires i < |log|
    ensures EventsOf(log[..i + 1], PauseEvent) == EventsOf(log[..i], PauseEvent) + [PauseEvent(log[i])]
  {
    var prefix := log[..i + 1];
    assert Init(prefix) == log[..i] && Last(prefix) == log[i];
    assert EventsOf(prefix, PauseEvent) == EventsOf(Init(prefix), PauseEvent) + [PauseEvent(Last(prefix))];
  }

  lemma {:induction false} PausedPrefix(log: seq<Record>, i: nat)
    requires Paired(EventsOf(log, PauseEvent)) && i < |log| && log[i].body.Resumed?
    ensures Open(EventsOf(log[..i], PauseEvent), ())
  {
    EventsSnoc(log, PauseEvent);
    if i == |log| - 1 {
      assert Init(log) == log[..i];
    } else {
      assert Init(log)[..i] == log[..i];
      PausedPrefix(Init(log), i);
    }
  }
}
