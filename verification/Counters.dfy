/** What the two loop guards count, said from the log: failures of one tool in a row, and one
    exact call answered the same way in a row. */
module Counters {
  import opened Values
  import opened Records
  import opened Reducer
  import opened CallHistory

  // --------------------------------------------------------- failure streaks

  /** How one tool's calls ended, oldest first, aborted ones left out. */
  function OutcomesOf(log: seq<Record>, tool: string): seq<ToolOutcome> {
    if log == [] then []
    else
      var b, earlier := Last(log).body, OutcomesOf(Init(log), tool);
      if b.ToolCallFinished? && b.outcome != ToolOutcome.Aborted && StartedAs(Init(log), b.callId, tool)
      then earlier + [b.outcome] else earlier
  }

  predicate StartedAs(log: seq<Record>, id: CallId, tool: string) {
    var start := StartOf(log, id);
    start.Some? && start.value.body.ToolCallStarted? && start.value.body.tool == tool
  }

  /** `n` is the length of the longest run of failures that `outcomes` ends with. */
  predicate EndsInFailures(outcomes: seq<ToolOutcome>, n: nat) {
    && n <= |outcomes|
    && (forall i :: |outcomes| - n <= i < |outcomes| ==> outcomes[i] != ToolOutcome.Ok)
    && (n < |outcomes| ==> outcomes[|outcomes| - n - 1] == ToolOutcome.Ok)
  }

  function StreakOf(streaks: map<string, nat>, tool: string): nat {
    if tool in streaks then streaks[tool] else 0
  }

  lemma StreakSnoc(outcomes: seq<ToolOutcome>, n: nat, outcome: ToolOutcome)
    requires EndsInFailures(outcomes, n)
    ensures EndsInFailures(outcomes + [outcome], if outcome == ToolOutcome.Ok then 0 else n + 1)
  {
    var all := outcomes + [outcome];
    assert forall i :: 0 <= i < |outcomes| ==> all[i] == outcomes[i];
  }

  lemma StreakEffect(f: Fold, r: Record, tool: string)
    requires Step(f, r).Accepted?
    ensures StreakOf(Step(f, r).value.state.failureStreaks, tool)
            == if r.body.ToolCallFinished? && r.body.callId in f.state.calls.open
                  && f.state.calls.open[r.body.callId].tool == tool && r.body.outcome != ToolOutcome.Aborted
               then if r.body.outcome == ToolOutcome.Ok then 0 else StreakOf(f.state.failureStreaks, tool) + 1
               else StreakOf(f.state.failureStreaks, tool)
  {
  }

  /** A tool's streak is the length of the longest trailing run of its non-OK results,
      ignoring aborts. */
  lemma {:induction false} StreaksMeanHistory(runId: RunId, scope: Scope, log: seq<Record>, tool: string)
    requires Accepts(Fresh(runId, scope), log)
    ensures EndsInFailures(OutcomesOf(log, tool), StreakOf(After(Fresh(runId, scope), log).state.failureStreaks, tool))
  {
    if log != [] {
      var start := Fresh(runId, scope);
      RunSnoc(start, log);
      StreaksMeanHistory(runId, scope, Init(log), tool);
      StreakEffect(After(start, Init(log)), Last(log), tool);
      if Last(log).body.ToolCallFinished? {
        FinishAnswers(runId, scope, log);
        StreakSnoc(OutcomesOf(Init(log), tool),
                   StreakOf(After(start, Init(log)).state.failureStreaks, tool), Last(log).body.outcome);
      }
    }
  }

  /** A tool without a streak has no entry: one that ended OK is not kept at zero. */
  lemma {:induction false} StreaksPositive(runId: RunId, scope: Scope, log: seq<Record>)
    requires Accepts(Fresh(runId, scope), log)
    ensures AllPositive(After(Fresh(runId, scope), log).state.failureStreaks)
  {
    if log != [] {
      RunSnoc(Fresh(runId, scope), log);
      StreaksPositive(runId, scope, Init(log));
      PositiveEffect(After(Fresh(runId, scope), Init(log)), Last(log));
    }
  }

  predicate AllPositive(streaks: map<string, nat>) {
    forall tool :: tool in streaks ==> streaks[tool] > 0
  }

  lemma {:induction false} PositiveEffect(f: Fold, r: Record)
    requires Step(f, r).Accepted? && AllPositive(f.state.failureStreaks)
    ensures AllPositive(Step(f, r).value.state.failureStreaks)
  {
  }

  // ---------------------------------------------------------- repeat tallies

  /** The answers one exact call got when it ended OK, oldest first. */
  function AnswersOf(log: seq<Record>, tool: string, arguments: Dict): seq<Json> {
    if log == [] then []
    else
      var b, earlier := Last(log).body, AnswersOf(Init(log), tool, arguments);
      if b.ToolCallFinished? && b.outcome == ToolOutcome.Ok && StartedWith(Init(log), b.callId, tool, arguments)
      then earlier + [Answered(b)] else earlier
  }

  /** What a call answered: its result, or the key it is stored under once it is offloaded. */
  function Answered(b: Body): Json
    requires b.ToolCallFinished?
  {
    match b.resultBlobKey
    case Some(key) => Text(key)
    case None => b.result
  }

  predicate StartedWith(log: seq<Record>, id: CallId, tool: string, arguments: Dict) {
    StartedAs(log, id, tool) && StartOf(log, id).value.body.arguments == arguments
  }

  /** `n` is the length of the longest run of one same answer that `answers` ends with. */
  predicate EndsInRepeats(answers: seq<Json>, n: nat) {
    && 0 < n <= |answers|
    && (forall i :: |answers| - n <= i < |answers| ==> answers[i] == Last(answers))
    && (n < |answers| ==> answers[|answers| - n - 1] != Last(answers))
  }

  /** The tally of one call against the answers it got. */
  predicate TallyMeans(counts: map<Digest, Tally>, tool: string, arguments: Dict, answers: seq<Json>) {
    var key := CallDigest(tool, arguments);
    if answers == [] then key !in counts
    else
      && key in counts
      && counts[key].resultDigest == AnswerDigest(tool, arguments, Last(answers))
      && EndsInRepeats(answers, counts[key].count)
  }

  lemma RepeatSnoc(answers: seq<Json>, n: nat, answer: Json)
    requires answers != [] && EndsInRepeats(answers, n)
    ensures EndsInRepeats(answers + [answer], if answer == Last(answers) then n + 1 else 1)
  {
    var all := answers + [answer];
    assert forall i :: 0 <= i < |answers| ==> all[i] == answers[i];
  }

  lemma RepeatEffect(f: Fold, r: Record)
    requires Step(f, r).Accepted?
    ensures Step(f, r).value.state.repeatCounts
            == RepeatsStep(f.state.repeatCounts, Counted(f.state.calls.open, r.body))
  {
  }

  lemma TallySnoc(counts: map<Digest, Tally>, tool: string, arguments: Dict, answers: seq<Json>, answer: Json)
    requires TallyMeans(counts, tool, arguments, answers)
    ensures TallyMeans(RepeatStep(counts, CallDigest(tool, arguments), AnswerDigest(tool, arguments, answer)),
                       tool, arguments, answers + [answer])
  {
    if answers != [] {
      RepeatSnoc(answers, counts[CallDigest(tool, arguments)].count, answer);
    }
  }

  /** A call's tally is the length of the trailing run of its OK results that gave one answer,
      and that answer; a call with no OK result has none. */
  lemma {:induction false} TalliesMeanHistory(
      runId: RunId, scope: Scope, log: seq<Record>, tool: string, arguments: Dict)
    requires Accepts(Fresh(runId, scope), log)
    ensures TallyMeans(After(Fresh(runId, scope), log).state.repeatCounts, tool, arguments,
                       AnswersOf(log, tool, arguments))
  {
    if log != [] {
      var start := Fresh(runId, scope);
      RunSnoc(start, log);
      TalliesMeanHistory(runId, scope, Init(log), tool, arguments);
      RepeatEffect(After(start, Init(log)), Last(log));
      if Last(log).body.ToolCallFinished? {
        FinishAnswers(runId, scope, log);
      }
      var s := After(start, Init(log)).state;
      TallyNext(s.repeatCounts, s.calls.open, log, tool, arguments);
    }
  }

  /** One more record, and the call it answers if it answers one. */
  lemma TallyNext(
      counts: map<Digest, Tally>, open: map<CallId, OpenToolCall>, log: seq<Record>, tool: string, arguments: Dict)
    requires log != [] && TallyMeans(counts, tool, arguments, AnswersOf(Init(log), tool, arguments))
    requires Last(log).body.ToolCallFinished? ==>
               var id := Last(log).body.callId;
               && id in open && StartOf(Init(log), id).Some? && StartOf(Init(log), id).value.body.ToolCallStarted?
               && open[id] == OpenedBy(StartOf(Init(log), id).value)
    ensures TallyMeans(RepeatsStep(counts, Counted(open, Last(log).body)), tool, arguments,
                       AnswersOf(log, tool, arguments))
  {
    var b := Last(log).body;
    if b.ToolCallFinished? && b.outcome == ToolOutcome.Ok && StartedWith(Init(log), b.callId, tool, arguments) {
      TallySnoc(counts, tool, arguments, AnswersOf(Init(log), tool, arguments), Answer(b));
    }
  }
}
