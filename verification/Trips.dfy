/** The failure-streak trips a report lists, against the streaks the live guard saw. */
module Trips {
  import opened Values
  import opened Records
  import opened Reducer
  import opened Counters
  import opened CallHistory

  datatype Trip = Trip(tool: string, callId: CallId, streak: int, at: int)

  /** The trip a record is, if the fold's streak for its tool rises to the threshold there. */
  function TripAt(before: State, after: State, r: Record, threshold: int): seq<Trip> {
    if r.body.ToolCallFinished? && r.body.callId in before.calls.open then
      var tool := before.calls.open[r.body.callId].tool;
      if StreakOf(before.failureStreaks, tool) < threshold == StreakOf(after.failureStreaks, tool)
      then [Trip(tool, r.body.callId, threshold, r.at)] else []
    else []
  }

  /** Every rise to the threshold over the fold, in order. */
  function TripsOf(f: Fold, log: seq<Record>, threshold: int): seq<Trip>
    requires Accepts(f, log)
  {
    if log == [] then []
    else
      TripsOf(f, Init(log), threshold)
      + TripAt(After(f, Init(log)).state, After(f, log).state, Last(log), threshold)
  }

  /** The streaks after one record, and the tool a finished call was started as. */
  lemma StreaksAfter(runId: RunId, scope: Scope, log: seq<Record>)
    requires Accepts(Fresh(runId, scope), log) && log != []
    ensures Accepts(Fresh(runId, scope), Init(log))
    ensures var f, g, b :=
              After(Fresh(runId, scope), Init(log)).state, After(Fresh(runId, scope), log).state, Last(log).body;
            if b.ToolCallFinished? then
              && b.callId in f.calls.open
              && StartedAs(Init(log), b.callId, f.calls.open[b.callId].tool)
              && g.failureStreaks == StreakStep(f.failureStreaks, f.calls.open[b.callId].tool, b.outcome)
            else g.failureStreaks == f.failureStreaks
  {
    RunSnoc(Fresh(runId, scope), log);
    StreaksStepEffect(After(Fresh(runId, scope), Init(log)), Last(log));
    if Last(log).body.ToolCallFinished? {
      FinishAnswers(runId, scope, log);
    }
  }

  lemma StreaksStepEffect(f: Fold, r: Record)
    requires Step(f, r).Accepted?
    ensures Step(f, r).value.state.failureStreaks == StreaksStep(f.state.failureStreaks, f.state.calls.open, r.body)
  {
  }

  /** The tools of the calls started so far. */
  ghost predicate KnowsTools(callTool: map<CallId, string>, log: seq<Record>) {
    forall id, tool :: (id in callTool && callTool[id] == tool) <==> StartedAs(log, id, tool)
  }

  lemma StartedAsNext(log: seq<Record>, id: CallId, tool: string)
    requires log != []
    ensures StartedAs(log, id, tool)
            == if Last(log).body.ToolCallStarted? && Last(log).body.callId == id then Last(log).body.tool == tool
               else StartedAs(Init(log), id, tool)
  {
  }

  lemma KnowsToolsNext(callTool: map<CallId, string>, log: seq<Record>)
    requires log != [] && KnowsTools(callTool, Init(log))
    ensures Last(log).body.ToolCallStarted? ==>
              KnowsTools(callTool[Last(log).body.callId := Last(log).body.tool], log)
    ensures !Last(log).body.ToolCallStarted? ==> KnowsTools(callTool, log)
  {
    forall id, tool
      ensures StartedAs(log, id, tool)
              == if Last(log).body.ToolCallStarted? && Last(log).body.callId == id then Last(log).body.tool == tool
                 else StartedAs(Init(log), id, tool)
    {
      StartedAsNext(log, id, tool);
    }
  }

  /** The trips after one record, in terms of the tool its call was started as. */
  lemma TripsNext(runId: RunId, scope: Scope, log: seq<Record>, threshold: int)
    requires Accepts(Fresh(runId, scope), log) && log != []
    ensures Accepts(Fresh(runId, scope), Init(log))
    ensures var start, b := Fresh(runId, scope), Last(log).body;
            var streaks := After(start, Init(log)).state.failureStreaks;
            var streaks', trips := After(start, log).state.failureStreaks, TripsOf(start, Init(log), threshold);
            if b.ToolCallFinished? then
              exists tool ::
                && StartedAs(Init(log), b.callId, tool)
                && streaks' == StreakStep(streaks, tool, b.outcome)
                && TripsOf(start, log, threshold)
                   == if (b.outcome == ToolOutcome.Error || b.outcome == ToolOutcome.Unknown)
                         && StreakOf(streaks, tool) + 1 == threshold
                      then trips + [Trip(tool, b.callId, threshold, Last(log).at)] else trips
            else streaks' == streaks && TripsOf(start, log, threshold) == trips
  {
    var start, b := Fresh(runId, scope), Last(log).body;
    StreaksAfter(runId, scope, log);
    var f, g := After(start, Init(log)).state, After(start, log).state;
    var trips := TripsOf(start, Init(log), threshold);
    assert TripsOf(start, log, threshold) == trips + TripAt(f, g, Last(log), threshold);
    assert trips + [] == trips;
    if b.ToolCallFinished? {
      var tool := f.calls.open[b.callId].tool;
      assert StartedAs(Init(log), b.callId, tool);
      RiseIs(f.failureStreaks, tool, b.outcome, threshold);
    }
  }

  /** A streak rises only at a failure, and by one. */
  lemma RiseIs(streaks: map<string, nat>, tool: string, outcome: ToolOutcome, threshold: int)
    ensures StreakOf(streaks, tool) < threshold == StreakOf(StreakStep(streaks, tool, outcome), tool)
            <==> (outcome == ToolOutcome.Error || outcome == ToolOutcome.Unknown)
                 && StreakOf(streaks, tool) + 1 == threshold
  {
  }

  /** The loop's variables after part of a log. */
  datatype Watch = Watch(streaks: map<string, nat>, callTool: map<CallId, string>, trips: seq<Trip>)

  /** One pass of the loop body. */
  function Watched(w: Watch, r: Record, threshold: int): Watch {
    match r.body
    case ToolCallStarted(id, tool, _, _, _, _, _, _) => w.(callTool := w.callTool[id := tool])
    case ToolCallFinished(id, outcome, _, _, _, _, _, _, _, _) =>
      var tool := if id in w.callTool then w.callTool[id] else "unknown";
      if outcome == ToolOutcome.Ok then w.(streaks := w.streaks - {tool})
      else if outcome == ToolOutcome.Error || outcome == ToolOutcome.Unknown then
        var streak := StreakOf(w.streaks, tool) + 1;
        w.(streaks := w.streaks[tool := streak],
           trips := if streak == threshold then w.trips + [Trip(tool, id, streak, r.at)] else w.trips)
      else w
    case _ => w
  }

  ghost predicate Faithful(w: Watch, start: Fold, log: seq<Record>, threshold: int)
    requires Accepts(start, log)
  {
    && w.streaks == After(start, log).state.failureStreaks
    && w.trips == TripsOf(start, log, threshold)
    && KnowsTools(w.callTool, log)
  }

  lemma WatchedFinish(w: Watch, r: Record, threshold: int, tool: string)
    requires r.body.ToolCallFinished? && r.body.callId in w.callTool && w.callTool[r.body.callId] == tool
    ensures var w' := Watched(w, r, threshold);
            && w'.callTool == w.callTool
            && w'.streaks == StreakStep(w.streaks, tool, r.body.outcome)
            && w'.trips == if (r.body.outcome == ToolOutcome.Error || r.body.outcome == ToolOutcome.Unknown)
                              && StreakOf(w.streaks, tool) + 1 == threshold
                           then w.trips + [Trip(tool, r.body.callId, threshold, r.at)] else w.trips
  {
  }

  lemma WatchedOther(w: Watch, r: Record, threshold: int)
    requires !r.body.ToolCallFinished?
    ensures var w' := Watched(w, r, threshold);
            && w'.streaks == w.streaks && w'.trips == w.trips
            && w'.callTool == if r.body.ToolCallStarted? then w.callTool[r.body.callId := r.body.tool] else w.callTool
  {
  }

  lemma WatchedFaithful(runId: RunId, scope: Scope, w: Watch, log: seq<Record>, threshold: int)
    requires Accepts(Fresh(runId, scope), log) && log != [] && Accepts(Fresh(runId, scope), Init(log))
    requires Faithful(w, Fresh(runId, scope), Init(log), threshold)
    ensures Faithful(Watched(w, Last(log), threshold), Fresh(runId, scope), log, threshold)
  {
    TripsNext(runId, scope, log, threshold);
    KnowsToolsNext(w.callTool, log);
    var r := Last(log);
    if r.body.ToolCallFinished? {
      var tool :|
        && StartedAs(Init(log), r.body.callId, tool)
        && After(Fresh(runId, scope), log).state.failureStreaks == StreakStep(w.streaks, tool, r.body.outcome)
        && TripsOf(Fresh(runId, scope), log, threshold)
           == if (r.body.outcome == ToolOutcome.Error || r.body.outcome == ToolOutcome.Unknown)
                 && StreakOf(w.streaks, tool) + 1 == threshold
              then w.trips + [Trip(tool, r.body.callId, threshold, r.at)] else w.trips;
      WatchedFinish(w, r, threshold, tool);
    } else {
      WatchedOther(w, r, threshold);
    }
  }

  /** `_failure_streak_trips`: over an accepted log, one trip for exactly each rise of the
      reducer's own streak to the threshold. */
  method FailureStreakTrips(ghost runId: RunId, ghost scope: Scope, log: seq<Record>, threshold: int)
    returns (trips: seq<Trip>)
    requires Accepts(Fresh(runId, scope), log)
    ensures trips == TripsOf(Fresh(runId, scope), log, threshold)
  {
    var w := Watch(map[], map[], []);
    var i := 0;
    while i < |log|
      invariant 0 <= i <= |log|
      invariant Accepts(Fresh(runId, scope), log[..i])
      invariant Faithful(w, Fresh(runId, scope), log[..i], threshold)
    {
      PrefixNext(Fresh(runId, scope), log, i);
      WatchedFaithful(runId, scope, w, log[..i + 1], threshold);
      w := Watched(w, log[i], threshold);
      i := i + 1;
    }
    assert log[..i] == log;
    trips := w.trips;
  }

  lemma PrefixNext(f: Fold, log: seq<Record>, i: nat)
    requires Accepts(f, log) && i < |log|
    ensures Accepts(f, log[..i]) && Accepts(f, log[..i + 1])
    ensures Init(log[..i + 1]) == log[..i] && Last(log[..i + 1]) == log[i]
  {
    AcceptsPrefix(f, log, i);
    AcceptsPrefix(f, log, i + 1);
  }
}
