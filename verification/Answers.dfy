/** A run's answer and the work behind it: every model call that ended is placed once. */
module Answers {
  import opened Values
  import opened Records
  import opened Reducer
  import opened CallHistory
  import opened Joins
  import opened Report
  import Billing

  /** A tool call as the work shows it: its start, and its end if it has one. */
  type CallView = Row<CallId, Record>

  datatype WorkTurn = WorkTurn(
    turn: nat, text: string, toolCalls: seq<CallView>, failure: Option<string>, at: int)

  datatype AnswerView = AnswerView(runId: RunId, text: string, work: seq<WorkTurn>, finished: bool)

  predicate EndsCall(r: Record) {
    r.body.ModelCallFinished? || r.body.ModelCallFailed?
  }

  /** The position of the last model call that finished asking for no tool: the answer. */
  function AnswerAt(log: seq<Record>): (i: Option<nat>)
    ensures i.Some? ==> i.value < |log| && log[i.value].body.ModelCallFinished?
  {
    if log == [] then None
    else if Last(log).body.ModelCallFinished? && Last(log).body.toolCalls == [] then Some(|log| - 1)
    else AnswerAt(Init(log))
  }

  function Present(views: map<CallId, CallView>, ids: seq<CallId>): seq<CallView> {
    if ids == [] then []
    else Present(views, Init(ids)) + (if Last(ids) in views then [views[Last(ids)]] else [])
  }

  function WorkOn(r: Record, views: map<CallId, CallView>): WorkTurn
    requires EndsCall(r)
  {
    match r.body
    case ModelCallFinished(turn, _, _, _, _, text, ids) => WorkTurn(turn, text, Present(views, ids), None, r.at)
    case ModelCallFailed(turn, _, error, _) => WorkTurn(turn, "", [], Some(error.message), r.at)
  }

  /** Every model call that ended, in order, the answer left out. */
  function WorkOf(log: seq<Record>, answer: Option<nat>, views: map<CallId, CallView>): seq<WorkTurn> {
    if log == [] then []
    else
      WorkOf(Init(log), answer, views)
      + (if EndsCall(Last(log)) && answer != Some(|log| - 1) then [WorkOn(Last(log), views)] else [])
  }

  /** Each call id under the last row it has. */
  ghost predicate Shows(views: map<CallId, CallView>, rows: seq<CallView>) {
    forall id :: && (id in views <==> LastRow(rows, id) < |rows|)
                 && (id in views ==> views[id] == rows[LastRow(rows, id)])
  }

  /** The dictionary of calls that rows stand for. */
  function ViewsOf(rows: seq<CallView>): map<CallId, CallView> {
    if rows == [] then map[] else ViewsOf(Init(rows))[Last(rows).key := Last(rows)]
  }

  lemma {:induction false} ViewsOfShows(rows: seq<CallView>)
    ensures Shows(ViewsOf(rows), rows)
  {
    if rows != [] {
      ViewsOfShows(Init(rows));
    }
  }

  lemma ShowsIsViewsOf(views: map<CallId, CallView>, rows: seq<CallView>)
    requires Shows(views, rows)
    ensures views == ViewsOf(rows)
  {
    ViewsOfShows(rows);
  }

  lemma ShowsNext(views: map<CallId, CallView>, before: seq<Event<CallId, Record>>, e: Event<CallId, Record>)
    requires Shows(views, Rows(before)) && (e.End? ==> Open(before, e.key))
    ensures e.Start? ==> Shows(views[e.key := Row(e.key, e.start, None)], Rows(before + [e]))
    ensures e.End? ==> e.key in views && Shows(views[e.key := Ended(views[e.key], e.end)], Rows(before + [e]))
    ensures e.Other? ==> Shows(views, Rows(before + [e]))
  {
    var rows := Rows(before);
    if e.End? {
      RowsEnd(before, e.key, e.end);
      var i := LastRow(rows, e.key);
      forall id ensures LastRow(rows[i := Ended(rows[i], e.end)], id) == LastRow(rows, id) {
        LastRowUpdate(rows, i, e.end, id);
      }
    } else {
      RowsStart(before, e);
      if e.Start? {
        forall id ensures LastRow(rows + [Row(e.key, e.start, None)], id)
                          == if e.key == id then |rows|
                             else if LastRow(rows, id) < |rows| then LastRow(rows, id) else |rows| + 1 {
          LastRowAppend(rows, Row(e.key, e.start, None), id);
        }
      }
    }
  }

  /** The latest end of a call since its latest start. */
  function LatestEnd(log: seq<Record>, id: CallId): Option<Record> {
    if log == [] then None
    else if Last(log).body.ToolCallStarted? && Last(log).body.callId == id then None
    else if Last(log).body.ToolCallFinished? && Last(log).body.callId == id && StartOf(Init(log), id).Some?
    then Some(Last(log))
    else LatestEnd(Init(log), id)
  }

  /** The calls of any log: each id that was started, under its latest start and that one's
      latest end. */
  ghost predicate CallsOf(views: map<CallId, CallView>, log: seq<Record>) {
    forall id :: && (id in views <==> StartOf(log, id).Some?)
                 && (id in views ==> views[id] == Row(id, StartOf(log, id).value, LatestEnd(log, id)))
  }

  /** The one dictionary that shows the calls of a log. */
  function CallsIn(log: seq<Record>): map<CallId, CallView> {
    if log == [] then map[]
    else
      var views, r := CallsIn(Init(log)), Last(log);
      if r.body.ToolCallStarted? then views[r.body.callId := Row(r.body.callId, r, None)]
      else if r.body.ToolCallFinished? && r.body.callId in views
      then views[r.body.callId := Ended(views[r.body.callId], r)]
      else views
  }

  lemma {:induction false} CallsInMeans(log: seq<Record>)
    ensures CallsOf(CallsIn(log), log)
  {
    if log != [] {
      CallsInMeans(Init(log));
      CallsOfNext(CallsIn(Init(log)), log);
    }
  }

  lemma CallsOfNext(views: map<CallId, CallView>, log: seq<Record>)
    requires log != [] && CallsOf(views, Init(log))
    ensures var r, b := Last(log), Last(log).body;
            CallsOf(if b.ToolCallStarted? then views[b.callId := Row(b.callId, r, None)]
                    else if b.ToolCallFinished? && b.callId in views then views[b.callId := Ended(views[b.callId], r)]
                    else views, log)
  {
  }

  /** Over a paired log the calls are its rows', each under the last one it has. */
  lemma {:induction false} CallsInRows(log: seq<Record>)
    requires Paired(EventsOf(log, ToolEvent))
    ensures Shows(CallsIn(log), Rows(EventsOf(log, ToolEvent)))
    ensures CallsIn(log) == ViewsOf(Rows(EventsOf(log, ToolEvent)))
  {
    if log != [] {
      EventsSnoc(log, ToolEvent);
      CallsInRows(Init(log));
      ShowsNext(CallsIn(Init(log)), EventsOf(Init(log), ToolEvent), ToolEvent(Last(log)));
    }
    ShowsIsViewsOf(CallsIn(log), Rows(EventsOf(log, ToolEvent)));
  }

  /** `_tool_calls`: every call started, with its end where one was recorded. */
  method CallViews(log: seq<Record>) returns (views: map<CallId, CallView>)
    ensures views == CallsIn(log)
    ensures CallsOf(views, log)
    ensures Paired(EventsOf(log, ToolEvent)) ==> views == ViewsOf(Rows(EventsOf(log, ToolEvent)))
  {
    views := map[];
    var i := 0;
    while i < |log|
      invariant 0 <= i <= |log|
      invariant views == CallsIn(log[..i])
    {
      assert Init(log[..i + 1]) == log[..i] && Last(log[..i + 1]) == log[i];
      match log[i].body {
        case ToolCallStarted(id, _, _, _, _, _, _, _) =>
          views := views[id := Row(id, log[i], None)];
        case ToolCallFinished(id, _, _, _, _, _, _, _, _, _) =>
          if id in views {
            views := views[id := Ended(views[id], log[i])];
          }
        case _ =>
      }
      i := i + 1;
    }
    assert log[..i] == log;
    CallsInMeans(log);
    if Paired(EventsOf(log, ToolEvent)) {
      CallsInRows(log);
    }
  }

  /** `_finishing_turn`: backwards to the first finished call that asked for no tool. */
  method FinishingTurn(log: seq<Record>) returns (turn: Option<nat>)
    ensures turn == if AnswerAt(log).Some? then Some(log[AnswerAt(log).value].body.turn) else None
  {
    var i := |log|;
    assert log[..i] == log;
    while i > 0
      invariant 0 <= i <= |log|
      invariant AnswerAt(log) == AnswerAt(log[..i])
    {
      var b := log[i - 1].body;
      assert Init(log[..i]) == log[..i - 1];
      if b.ModelCallFinished? && b.toolCalls == [] {
        return Some(b.turn);
      }
      i := i - 1;
    }
    return None;
  }

  // ------------------------------------------------ one end to a turn number

  /** In an accepted log two calls that ended have different turns. */
  ghost predicate EndsOnce(log: seq<Record>) {
    forall i, j :: 0 <= i < j < |log| && EndsCall(log[i]) && EndsCall(log[j]) ==>
      log[i].body.turn != log[j].body.turn
  }

  lemma {:induction false} EndedStaysClosed(log: seq<Record>, i: nat)
    requires Paired(EventsOf(log, ModelEvent)) && Once(EventsOf(log, ModelEvent))
    requires i < |log| && EndsCall(log[i])
    ensures Started(EventsOf(log, ModelEvent), log[i].body.turn) && !Open(EventsOf(log, ModelEvent), log[i].body.turn)
  {
    EventsSnoc(log, ModelEvent);
    if i == |log| - 1 {
      OpenStarted(EventsOf(Init(log), ModelEvent), log[i].body.turn);
    } else {
      assert Init(log)[i] == log[i];
      EndedStaysClosed(Init(log), i);
    }
  }

  lemma {:induction false} TurnsEndOnce(log: seq<Record>)
    requires Paired(EventsOf(log, ModelEvent)) && Once(EventsOf(log, ModelEvent))
    ensures EndsOnce(log)
  {
    if log != [] {
      EventsSnoc(log, ModelEvent);
      TurnsEndOnce(Init(log));
      forall i, j | 0 <= i < j < |log| && EndsCall(log[i]) && EndsCall(log[j])
        ensures log[i].body.turn != log[j].body.turn
      {
        assert Init(log)[i] == log[i];
        if j == |log| - 1 {
          EndedStaysClosed(Init(log), i);
        } else {
          assert Init(log)[j] == log[j];
        }
      }
    }
  }

  // ------------------------------------------------------------- the split

  /** The text of the last call that finished in a turn. */
  function TextIn(log: seq<Record>, turn: Option<nat>): string {
    if log == [] then ""
    else if IsAnswer(Last(log), turn) then Last(log).body.text
    else TextIn(Init(log), turn)
  }

  predicate IsAnswer(r: Record, turn: Option<nat>) {
    r.body.ModelCallFinished? && turn == Some(r.body.turn)
  }

  /** Every model call that ended, in order, those that finished in the turn left out. */
  function WorkBut(log: seq<Record>, turn: Option<nat>, views: map<CallId, CallView>): seq<WorkTurn> {
    if log == [] then []
    else
      WorkBut(Init(log), turn, views)
      + (if EndsCall(Last(log)) && !IsAnswer(Last(log), turn) then [WorkOn(Last(log), views)] else [])
  }

  function AnswerTurn(log: seq<Record>): Option<nat> {
    if AnswerAt(log).Some? then Some(log[AnswerAt(log).value].body.turn) else None
  }

  /** A log split at the position of its answer. */
  function SplitAt(log: seq<Record>, at: Option<nat>): AnswerView
    requires log != [] && (at.Some? ==> at.value < |log| && log[at.value].body.ModelCallFinished?)
  {
    AnswerView(log[0].runId, TextAt(log, at), WorkOf(log, at, CallsIn(log)), at.Some?)
  }

  function TextAt(log: seq<Record>, at: Option<nat>): string
    requires at.Some? ==> at.value < |log| && log[at.value].body.ModelCallFinished?
  {
    if at.Some? then log[at.value].body.text else ""
  }

  /** A log split by the turn of its answer. */
  function SplitByTurn(log: seq<Record>): AnswerView
    requires log != []
  {
    var turn := AnswerTurn(log);
    AnswerView(log[0].runId, TextIn(log, turn), WorkBut(log, turn, CallsIn(log)), turn.Some?)
  }

  /** `split_answer`; None is the ValueError of a log without records. A log the fold refuses is
      split by turn: every call that finished in the answer's turn is left out, and the last of
      them is the text. In an accepted log that is one call, so the work is every model call
      that ended but the answer, once each and in order. */
  method SplitAnswer(ghost runId: RunId, ghost scope: Scope, log: seq<Record>) returns (answer: Option<AnswerView>)
    ensures answer.None? <==> log == []
    ensures answer.Some? ==> answer.value == SplitByTurn(log)
    ensures answer.Some? && Accepts(Fresh(runId, scope), log) ==> answer.value == SplitAt(log, AnswerAt(log))
  {
    if log == [] {
      return None;
    }
    var calls := CallViews(log);
    var answerTurn := FinishingTurn(log);
    var text, work := SplitLoop(log, calls, answerTurn);
    if Accepts(Fresh(runId, scope), log) {
      AcceptedSplit(runId, scope, log);
    }
    return Some(AnswerView(log[0].runId, text, work, answerTurn.Some?));
  }

  method SplitLoop(log: seq<Record>, calls: map<CallId, CallView>, answerTurn: Option<nat>)
    returns (text: string, work: seq<WorkTurn>)
    ensures text == TextIn(log, answerTurn)
    ensures work == WorkBut(log, answerTurn, calls)
  {
    work := [];
    text := "";
    var i := 0;
    while i < |log|
      invariant 0 <= i <= |log|
      invariant text == TextIn(log[..i], answerTurn)
      invariant work == WorkBut(log[..i], answerTurn, calls)
    {
      var r := log[i];
      assert Init(log[..i + 1]) == log[..i];
      if r.body.ModelCallFinished? {
        if answerTurn.Some? && r.body.turn == answerTurn.value {
          text := r.body.text;
        } else {
          work := work + [WorkOn(r, calls)];
        }
      } else if r.body.ModelCallFailed? {
        work := work + [WorkOn(r, calls)];
      }
      i := i + 1;
    }
    assert log[..i] == log;
  }

  /** Whether only the record at `at` finished in the turn, among the first records of a log. */
  ghost predicate OnlyAt(log: seq<Record>, at: Option<nat>, turn: Option<nat>) {
    forall i :: 0 <= i < |log| ==> (IsAnswer(log[i], turn) <==> at == Some(i))
  }

  lemma {:induction false} SplitOnlyAt(
      log: seq<Record>, at: Option<nat>, turn: Option<nat>, views: map<CallId, CallView>)
    requires OnlyAt(log, at, turn)
    ensures WorkBut(log, turn, views) == WorkOf(log, at, views)
    ensures TextIn(log, turn)
            == if at.Some? && at.value < |log| && log[at.value].body.ModelCallFinished?
               then log[at.value].body.text else ""
  {
    if log != [] {
      assert forall i :: 0 <= i < |Init(log)| ==> Init(log)[i] == log[i];
      SplitOnlyAt(Init(log), at, turn, views);
      assert IsAnswer(Last(log), turn) <==> at == Some(|log| - 1);
    }
  }

  /** In an accepted log one call finished in the answer's turn, so splitting by turn leaves out
      the answer alone. */
  lemma AcceptedSplit(runId: RunId, scope: Scope, log: seq<Record>)
    requires Accepts(Fresh(runId, scope), log) && log != []
    ensures SplitByTurn(log) == SplitAt(log, AnswerAt(log))
    ensures CallsIn(log) == ViewsOf(Rows(EventsOf(log, ToolEvent)))
  {
    ToolCallsPaired(runId, scope, log);
    CallsInRows(log);
    ModelCallsPaired(runId, scope, log);
    TurnsEndOnce(log);
    OneAnswer(log);
    SplitOnlyAt(log, AnswerAt(log), AnswerTurn(log), CallsIn(log));
  }

  lemma OneAnswer(log: seq<Record>)
    requires EndsOnce(log)
    ensures OnlyAt(log, AnswerAt(log), AnswerTurn(log))
  {
  }

  /** Nothing is dropped and nothing is shown twice. */
  lemma {:induction false} WorkCount(log: seq<Record>, answer: Option<nat>, views: map<CallId, CallView>)
    requires answer.Some? ==> answer.value < |log| ==> log[answer.value].body.ModelCallFinished?
    ensures |WorkOf(log, answer, views)| + (if answer.Some? && answer.value < |log| then 1 else 0)
            == Billing.FinishedCalls(log) + Billing.FailedCalls(log)
  {
    if log != [] {
      if answer.Some? && answer.value < |Init(log)| {
        assert Init(log)[answer.value] == log[answer.value];
      }
      WorkCount(Init(log), answer, views);
    }
  }

  // ------------------------------------------------------ record by record

  predicate Finishing(r: Record) {
    r.body.ModelCallFinished? && |r.body.toolCalls| == 0
  }

  /** The answer is the last model call that finished without asking for a tool. */
  lemma {:induction false} AnswerAtMeans(log: seq<Record>)
    ensures AnswerAt(log).Some? ==>
              Finishing(log[AnswerAt(log).value])
              && forall j :: AnswerAt(log).value < j < |log| ==> !Finishing(log[j])
    ensures AnswerAt(log).None? ==> forall j :: 0 <= j < |log| ==> !Finishing(log[j])
  {
    if log != [] {
      AnswerAtMeans(Init(log));
      assert forall j :: 0 <= j < |Init(log)| ==> Init(log)[j] == log[j];
    }
  }

  /** A listed call as it is shown, if it was started: with its end, if it has one. */
  function ShownCall(log: seq<Record>, id: CallId): seq<CallView> {
    if StartOf(log, id).Some? then [Row(id, StartOf(log, id).value, LatestEnd(log, id))] else []
  }

  /** The calls of a listing as they are shown, in order. */
  function Listed(log: seq<Record>, ids: seq<CallId>): seq<CallView> {
    if ids == [] then [] else ShownCall(log, ids[0]) + Listed(log, ids[1..])
  }

  lemma {:induction false} ListedSnoc(log: seq<Record>, ids: seq<CallId>, id: CallId)
    ensures Listed(log, ids + [id]) == Listed(log, ids) + ShownCall(log, id)
  {
    var all := ids + [id];
    if ids == [] {
      assert all[1..] == [];
    } else {
      assert all[1..] == ids[1..] + [id];
      ListedSnoc(log, ids[1..], id);
    }
  }

  lemma {:induction false} PresentIs(log: seq<Record>, ids: seq<CallId>)
    ensures Present(CallsIn(log), ids) == Listed(log, ids)
  {
    CallsInMeans(log);
    if ids != [] {
      PresentIs(log, Init(ids));
      ListedSnoc(log, Init(ids), Last(ids));
      assert Init(ids) + [Last(ids)] == ids;
    }
  }

  /** A turn of work is its record's: what the model said and the calls it listed, or why the
      call failed. */
  predicate WorkAs(w: WorkTurn, r: Record, log: seq<Record>) {
    && (r.body.ModelCallFinished? || r.body.ModelCallFailed?)
    && w.turn == r.body.turn && w.at == r.at
    && (r.body.ModelCallFinished? ==>
          w.text == r.body.text && w.failure == None && w.toolCalls == Listed(log, r.body.toolCalls))
    && (r.body.ModelCallFailed? ==> w.text == "" && w.failure == Some(r.body.error.message) && w.toolCalls == [])
  }

  /** Where the calls that ended are, the answer's left out. */
  function WorkPlaces(log: seq<Record>, answer: Option<nat>): (at: seq<nat>)
    ensures forall n :: 0 <= n < |at| ==> at[n] < |log|
  {
    if log == [] then []
    else if (Last(log).body.ModelCallFinished? || Last(log).body.ModelCallFailed?) && answer != Some(|log| - 1)
    then WorkPlaces(Init(log), answer) + [|log| - 1]
    else WorkPlaces(Init(log), answer)
  }

  lemma {:induction false} WorkPlacesAll(log: seq<Record>, answer: Option<nat>)
    ensures forall m, n :: 0 <= m < n < |WorkPlaces(log, answer)| ==>
              WorkPlaces(log, answer)[m] < WorkPlaces(log, answer)[n]
    ensures forall i: nat :: i in WorkPlaces(log, answer) <==>
              i < |log| && (log[i].body.ModelCallFinished? || log[i].body.ModelCallFailed?) && answer != Some(i)
  {
    if log != [] {
      WorkPlacesAll(Init(log), answer);
      assert forall i :: 0 <= i < |Init(log)| ==> Init(log)[i] == log[i];
      assert forall i :: i in WorkPlaces(log, answer) <==>
               || i in WorkPlaces(Init(log), answer)
               || (i == |log| - 1 && |WorkPlaces(log, answer)| > |WorkPlaces(Init(log), answer)|);
    }
  }

  /** Turns of work of the records at some places. */
  ghost predicate WorkAtPlaces(work: seq<WorkTurn>, records: seq<Record>, at: seq<nat>, log: seq<Record>) {
    && |work| == |at|
    && forall n :: 0 <= n < |at| ==> at[n] < |records| && WorkAs(work[n], records[at[n]], log)
  }

  /** The work of an accepted log is one turn for each such call, in order. */
  lemma {:induction false} WorkIs(log: seq<Record>, records: seq<Record>, answer: Option<nat>)
    ensures WorkAtPlaces(WorkOf(records, answer, CallsIn(log)), records, WorkPlaces(records, answer), log)
  {
    if records != [] {
      var init, last := Init(records), Last(records);
      WorkIs(log, init, answer);
      assert forall i :: 0 <= i < |init| ==> init[i] == records[i];
      if last.body.ModelCallFinished? {
        PresentIs(log, last.body.toolCalls);
      }
    }
  }

  /** So `split_answer` of an accepted log, record by record. */
  lemma {:induction false} SplitMeans(runId: RunId, scope: Scope, log: seq<Record>)
    requires Accepts(Fresh(runId, scope), log) && log != []
    ensures var view, at := SplitByTurn(log), AnswerAt(log);
            && view.runId == log[0].runId && (view.finished <==> at.Some?)
            && view.text == (if at.Some? && log[at.value].body.ModelCallFinished? then log[at.value].body.text else "")
            && WorkAtPlaces(view.work, log, WorkPlaces(log, at), log)
  {
    AcceptedSplit(runId, scope, log);
    WorkIs(log, log, AnswerAt(log));
  }
}
