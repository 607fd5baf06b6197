/** Concrete logs on which the code does less than its prose says. Each is one member of the
    family that the exact condition, proved elsewhere, rules out. */
module Examples {
  import opened Values
  import Metering
  import opened Records
  import opened Reducer
  import opened Continuation
  import opened PendingQueues
  import opened SplitFold
  import opened TaskStream
  import opened CallHistory
  import opened Conversation
  import opened ThreadView
  import opened Compacting
  import opened Subtrees
  import Rollups
  import Endings
  import Bytes
  import Signing

  const RUN: RunId := "r"
  const SCOPE := Scope("tenant", "principal")

  function At(seqNo: nat, body: Body): Record {
    Record(RUN, seqNo, seqNo, SCOPE, None, body)
  }

  /** One more record on an accepted log. */
  lemma OneMore(f: Fold, log: seq<Record>, r: Record)
    requires Accepts(f, log) && Step(After(f, log), r).Accepted?
    ensures Accepts(f, log + [r]) && After(f, log + [r]) == Step(After(f, log), r).value
  {
    assert Init(log + [r]) == log && Last(log + [r]) == r;
  }

  // ---------------------------------------------- a continued fold, too lenient

  function Enqueue(seqNo: nat): Record {
    At(seqNo, QueueEnqueued(NextRun, "x", map[]))
  }

  const WITHDRAWN := [Enqueue(1), At(2, QueueCancelled("x"))]

  lemma EnqueueCancel(f: Fold, r: Record, q: Record)
    requires f.state.runId == RUN && f.state.scope == SCOPE && f.state.headSeq == 0 && !f.state.life.settled
    requires f.locals == Locals({}, {}, map[], {}, {})
    requires r == Enqueue(1) && q == At(2, QueueCancelled("x"))
    ensures Step(f, r).Accepted? && Step(Step(f, r).value, q).Accepted?
    ensures var g := Step(Step(f, r).value, q).value;
            && g.state.runId == RUN && g.state.scope == SCOPE && g.state.headSeq == 2 && !g.state.life.settled
  {
  }

  /** An entry id withdrawn before the cut is enqueued again: the whole fold refuses what the
      fold in two parts accepts. */
  lemma ReenqueueSlipsPast()
    ensures Accepts(Fresh(RUN, SCOPE), WITHDRAWN)
    ensures Reducer.Finished(Run(StartFrom(After(Fresh(RUN, SCOPE), WITHDRAWN).state), [Enqueue(3)]))
            != Reducer.Finished(Run(Fresh(RUN, SCOPE), WITHDRAWN + [Enqueue(3)]))
  {
    var start := Fresh(RUN, SCOPE);
    assert ById([]) == map[];
    assert start.locals == Locals({}, {}, map[], {}, {});
    var one := [Enqueue(1)];
    EnqueueCancel(start, Enqueue(1), At(2, QueueCancelled("x")));
    assert Accepts(start, []);
    OneMore(start, [], Enqueue(1));
    assert [] + one == one;
    OneMore(start, one, At(2, QueueCancelled("x")));
    assert one + [At(2, QueueCancelled("x"))] == WITHDRAWN;
    SlipsAtOnce(After(start, WITHDRAWN), Gone(WITHDRAWN), Enqueue(3));
    SplitExactly(RUN, SCOPE, WITHDRAWN, [Enqueue(3)]);
  }

  lemma SlipsAtOnce(f: Fold, gone: set<string>, r: Record)
    requires Slips(f.state, gone, r)
    ensures SlipsIn(f, gone, [r])
  {
    assert Init([r]) == [] && Last([r]) == r;
    assert Accepts(f, []);
  }

  // ------------------------------------------- a stop the stream does not show

  const ADMISSION := At(1, RunAdmitted("v", map[], None, 0, None, 0, None, None, [], false, None))

  const STOPPED_EARLY := [ADMISSION, At(2, AbortRequested)]

  lemma AdmitAbort(f: Fold)
    requires f == Fresh(RUN, SCOPE)
    ensures Step(f, ADMISSION).Accepted? && Step(Step(f, ADMISSION).value, At(2, AbortRequested)).Accepted?
    ensures var s := Step(Step(f, ADMISSION).value, At(2, AbortRequested)).value.state;
            s.life.terminal.None? && s.queues.abortSeq.Some? && !s.waiting.suspended && s.life.attemptCount == 0
  {
  }

  /** A Run stopped before its first attempt: the stream last said submitted, the snapshot says
      working. */
  lemma StreamMissesTheStop(answer: Option<string>)
    ensures Accepts(Fresh(RUN, SCOPE), STOPPED_EARLY) && Orderly(STOPPED_EARLY)
    ensures LastState(Streamed(STOPPED_EARLY, answer, DefaultSuspendState))
            != Some(TaskStateOf(After(Fresh(RUN, SCOPE), STOPPED_EARLY).state, DefaultSuspendState))
  {
    var start, one := Fresh(RUN, SCOPE), [ADMISSION];
    AdmitAbort(start);
    assert Accepts(start, []);
    OneMore(start, [], ADMISSION);
    assert [] + one == one;
    OneMore(start, one, At(2, AbortRequested));
    assert one + [At(2, AbortRequested)] == STOPPED_EARLY;
    assert Init(STOPPED_EARLY) == one && Init(one) == [];
    assert Orderly([]) && Orderly(one);
    SnapshotAgrees(RUN, SCOPE, STOPPED_EARLY, answer, DefaultSuspendState);
  }

  // ------------------------------------------ a continuation that leaves a mark

  const CALL := CallDigest("t", map[])
  const ANSWER := AnswerDigest("t", map[], Null)

  function CallStart(seqNo: nat, id: CallId): Record {
    At(seqNo, ToolCallStarted(id, "t", map[], 1, None, true, true, None))
  }

  function CallEnd(seqNo: nat, id: CallId): Record {
    At(seqNo, ToolCallFinished(id, ToolOutcome.Ok, Null, None, None, None, 0, None, None, []))
  }

  /** A fold of this Run, before any turn, with the next record to be `n`. */
  predicate Ready(f: Fold, n: nat) {
    f.state.runId == RUN && f.state.scope == SCOPE && f.state.headSeq + 1 == n && !f.state.life.settled
    && f.state.turns.turn == 0
  }

  lemma CallStarts(f: Fold, n: nat, id: CallId)
    requires Ready(f, n) && id !in f.locals.started
    ensures Step(f, CallStart(n, id)).Accepted?
    ensures var g := Step(f, CallStart(n, id)).value;
            && Ready(g, n + 1) && id in g.state.calls.open
            && g.state.calls.open[id].tool == "t" && g.state.calls.open[id].arguments == map[]
            && g.state.repeatCounts == f.state.repeatCounts && g.locals.started == f.locals.started + {id}
  {
  }

  lemma CallEnds(f: Fold, n: nat, id: CallId)
    requires Ready(f, n) && id in f.state.calls.open
    requires f.state.calls.open[id].tool == "t" && f.state.calls.open[id].arguments == map[]
    ensures Counted(f.state.calls.open, CallEnd(n, id).body) == Some((CALL, ANSWER))
    ensures Step(f, CallEnd(n, id)).Accepted?
    ensures var g := Step(f, CallEnd(n, id)).value;
            && Ready(g, n + 1) && g.locals.started == f.locals.started
            && g.state.repeatCounts == RepeatStep(f.state.repeatCounts, CALL, ANSWER)
  {
  }

  const TALLIED := [CallStart(1, "a"), CallEnd(2, "a"), CallStart(3, "b")]

  /** One call answered and tallied, a second like it still open. */
  lemma OneTallied(f: Fold)
    requires Ready(f, 1) && f.locals.started == {} && f.state.repeatCounts == map[]
    ensures Accepts(f, TALLIED)
    ensures var s := After(f, TALLIED).state;
            && Ready(After(f, TALLIED), 4)
            && s.repeatCounts == map[CALL := Tally(ANSWER, 1)]
            && "b" in s.calls.open && s.calls.open["b"].tool == "t" && s.calls.open["b"].arguments == map[]
  {
    var one, two := [CallStart(1, "a")], [CallStart(1, "a"), CallEnd(2, "a")];
    assert Accepts(f, []);
    CallStarts(f, 1, "a");
    OneMore(f, [], CallStart(1, "a"));
    assert [] + one == one;
    CallEnds(After(f, one), 2, "a");
    OneMore(f, one, CallEnd(2, "a"));
    assert one + [CallEnd(2, "a")] == two;
    CallStarts(After(f, two), 3, "b");
    OneMore(f, two, CallStart(3, "b"));
    assert two + [CallStart(3, "b")] == TALLIED;
  }

  /** Folding the same answer onto the same prior twice: the second fold counts it on top of
      what the first one left behind. */
  lemma ContinuingTwiceDiffers()
    ensures Accepts(Fresh(RUN, SCOPE), TALLIED)
    ensures var s := After(Fresh(RUN, SCOPE), TALLIED).state;
            var once, twice := StartFrom(s), StartFrom(PriorAfter(s, [CallEnd(4, "b")]));
            && Accepts(once, [CallEnd(4, "b")]) && Accepts(twice, [CallEnd(4, "b")])
            && After(twice, [CallEnd(4, "b")]).state != After(once, [CallEnd(4, "b")]).state
  {
    var start := Fresh(RUN, SCOPE);
    assert start.locals.started == {};
    OneTallied(start);
    TalliedTwice(After(start, TALLIED).state);
  }

  lemma TalliedTwice(s: State)
    requires Ready(StartFrom(s), 4) && s.repeatCounts == map[CALL := Tally(ANSWER, 1)]
    requires "b" in s.calls.open && s.calls.open["b"].tool == "t" && s.calls.open["b"].arguments == map[]
    ensures var once, twice := StartFrom(s), StartFrom(PriorAfter(s, [CallEnd(4, "b")]));
            && Accepts(once, [CallEnd(4, "b")]) && Accepts(twice, [CallEnd(4, "b")])
            && After(twice, [CallEnd(4, "b")]).state != After(once, [CallEnd(4, "b")]).state
  {
    var f, r := StartFrom(s), CallEnd(4, "b");
    CallEnds(f, 4, "b");
    assert Accepts(f, []) && [] + [r] == [r];
    OneMore(f, [], r);
    OneAnswer(f, r);
    CalledTwice(s, [r]);
  }

  lemma OneAnswer(f: Fold, r: Record)
    requires Accepts(f, [r]) && Counted(f.state.calls.open, r.body) == Some((CALL, ANSWER))
    ensures Answers(f, [r]) == [(CALL, ANSWER)]
    ensures AnswersTo([(CALL, ANSWER)], CALL) == [ANSWER] && AllAre([ANSWER], ANSWER)
  {
    AnswersOfOne(f, r);
    OneTo(CALL, ANSWER);
  }

  lemma AnswersOfOne(f: Fold, r: Record)
    requires Accepts(f, [r])
    ensures Answers(f, [r]) == AsSeq(Counted(f.state.calls.open, r.body))
  {
    assert Init([r]) == [] && Last([r]) == r;
    assert Answers(f, []) == [];
  }

  lemma OneTo(key: Digest, answer: Digest)
    ensures AnswersTo([(key, answer)], key) == [answer]
  {
    var pairs := [(key, answer)];
    assert Init(pairs) == [] && Last(pairs) == (key, answer);
    assert AnswersTo([], key) == [];
  }

  // ------------------------------------- an answer the model sees and nobody else

  const PROGRAM := At(1, ToolCallStarted("p", RUN_CODE, map[], 1, None, true, true, None))
  const BY_PROGRAM := At(2, ToolCallStarted("c", "t", map[], 1, None, true, true, Some("p")))
  const COMPACTION := At(3, CompactionApplied(1, 2, "s", Metering.NO_USAGE, true, None))
  const ANSWERED := CallEnd(4, "c")

  const STRADDLING := [PROGRAM, BY_PROGRAM, COMPACTION, ANSWERED]

  lemma ProgramStarts(f: Fold)
    requires Ready(f, 1) && f.locals.started == {} && f.state.bill.cost.None?
    ensures Step(f, PROGRAM).Accepted?
    ensures var g := Step(f, PROGRAM).value;
            Ready(g, 2) && g.locals.started == {"p"} && g.state.bill.cost.None?
  {
  }

  lemma ProgramCalls(f: Fold)
    requires Ready(f, 2) && f.locals.started == {"p"} && f.state.bill.cost.None?
    ensures Step(f, BY_PROGRAM).Accepted?
    ensures var g := Step(f, BY_PROGRAM).value;
            Ready(g, 3) && "c" in g.state.calls.open && g.state.bill.cost.None?
  {
  }

  lemma CompactedBetween(f: Fold)
    requires Ready(f, 3) && "c" in f.state.calls.open && f.state.bill.cost.None?
    ensures Step(f, COMPACTION).Accepted?
    ensures var g := Step(f, COMPACTION).value;
            && Ready(g, 4) && "c" in g.state.calls.open
            && Step(g, ANSWERED).Accepted?
  {
  }

  lemma ProgramPart(f: Fold)
    requires Ready(f, 1) && f.locals.started == {} && f.state.bill.cost.None?
    ensures Accepts(f, [PROGRAM, BY_PROGRAM])
    ensures var g := After(f, [PROGRAM, BY_PROGRAM]);
            Ready(g, 3) && "c" in g.state.calls.open && g.state.bill.cost.None?
  {
    var one := [PROGRAM];
    assert Accepts(f, []);
    ProgramStarts(f);
    OneMore(f, [], PROGRAM);
    assert [] + one == one;
    ProgramCalls(After(f, one));
    OneMore(f, one, BY_PROGRAM);
    assert one + [BY_PROGRAM] == [PROGRAM, BY_PROGRAM];
  }

  lemma StraddlingFrom(f: Fold)
    requires Accepts(f, [PROGRAM, BY_PROGRAM])
    requires var g := After(f, [PROGRAM, BY_PROGRAM]);
             Ready(g, 3) && "c" in g.state.calls.open && g.state.bill.cost.None?
    ensures Accepts(f, STRADDLING)
  {
    var two := [PROGRAM, BY_PROGRAM];
    var three := two + [COMPACTION];
    CompactedBetween(After(f, two));
    OneMore(f, two, COMPACTION);
    OneMore(f, three, ANSWERED);
    assert three + [ANSWERED] == STRADDLING;
  }

  lemma StraddlingAccepted()
    ensures Accepts(Fresh(RUN, SCOPE), STRADDLING)
  {
    var f := Fresh(RUN, SCOPE);
    assert f.locals.started == {};
    ProgramPart(f);
    StraddlingFrom(f);
  }

  lemma StraddlesThere()
    ensures Boundary(STRADDLING) == 2 && StraddlesAt(STRADDLING, 2, 3)
  {
    var one, two, three := [PROGRAM], [PROGRAM, BY_PROGRAM], [PROGRAM, BY_PROGRAM, COMPACTION];
    assert Init(STRADDLING) == three && Init(three) == two && Init(two) == one && Init(one) == [];
    assert Boundary(one) == 0 && Boundary(two) == 0 && Boundary(three) == 2;
    assert StartOf(two, "c") == Some(BY_PROGRAM);
    assert StartOf(three, "c") == Some(BY_PROGRAM);
    assert StartOf(STRADDLING, "c") == Some(BY_PROGRAM);
  }

  /** A program's call starts, a compaction replaces its start, and it ends: its answer is in the
      model's conversation, and the rows a person sees, program-made calls aside, lack it. */
  lemma StraddlingShows(p: Printer)
    ensures Accepts(Fresh(RUN, SCOPE), STRADDLING)
    ensures ViewsOf(p, STRADDLING).Some?
    ensures ThreadView.Shown(STRADDLING, ViewsOf(p, STRADDLING).value) != Roles(ConversationOf(p, STRADDLING))
  {
    StraddlingAccepted();
    StraddlesThere();
    ProjectionsAgree(p, RUN, SCOPE, STRADDLING);
  }

  // --------------------------------------------- an ending that is not the last

  const ENDED := At(2, RunSettled(Completed, None, None))
  const ENDED_AGAIN := At(3, RunSettled(TerminalState.Failed, None, None))

  lemma AdmitEnd(f: Fold)
    requires f == Fresh(RUN, SCOPE)
    ensures Step(f, ADMISSION).Accepted? && Step(Step(f, ADMISSION).value, ENDED).Accepted?
    ensures var s := Step(Step(f, ADMISSION).value, ENDED).value.state;
            s.runId == RUN && s.scope == SCOPE && s.headSeq == 2 && s.life.settled && s.life.terminal == Some(Completed)
  {
  }

  /** A settlement follows a settlement, and a completed Run has failed. */
  lemma SettledTwice()
    ensures Accepts(Fresh(RUN, SCOPE), [ADMISSION, ENDED])
    ensures Accepts(Fresh(RUN, SCOPE), [ADMISSION, ENDED, ENDED_AGAIN])
    ensures After(Fresh(RUN, SCOPE), [ADMISSION, ENDED]).state.life.terminal == Some(Completed)
    ensures After(Fresh(RUN, SCOPE), [ADMISSION, ENDED, ENDED_AGAIN]).state.life.terminal
            == Some(TerminalState.Failed)
  {
    var start, one, two := Fresh(RUN, SCOPE), [ADMISSION], [ADMISSION, ENDED];
    AdmitEnd(start);
    assert Accepts(start, []);
    OneMore(start, [], ADMISSION);
    assert [] + one == one;
    OneMore(start, one, ENDED);
    assert one + [ENDED] == two;
    Endings.SettledEnds(After(start, two), [ENDED_AGAIN]);
    RunConcat(start, two, [ENDED_AGAIN]);
    assert two + [ENDED_AGAIN] == [ADMISSION, ENDED, ENDED_AGAIN];
  }

  // --------------------------------------------------- a total marked complete

  function Of(id: RunId, seqNo: nat, body: Body): Record {
    Record(id, seqNo, seqNo, SCOPE, None, body)
  }

  function Admitted(parent: Option<RunId>): Body {
    RunAdmitted("v", map[], None, 0, parent, 0, None, None, [], false, None)
  }

  function Spawned(child: RunId): Body {
    SubagentSpawned(child, "n", "k", "v", [], "m", 1, false)
  }

  function ChildEnded(child: RunId): Body {
    SubagentFinished(child, "n", Completed, None, None, Metering.NO_USAGE, 0, None, 0)
  }

  /** A Run admitted and not settled, with at most one child. */
  predicate Underway(s: State, id: RunId, n: nat, child: Option<RunId>, alive: bool) {
    && s.runId == id && s.scope == SCOPE && s.headSeq == n
    && s.life.admitted && !s.life.settled && s.life.terminal.None?
    && s.family.order == (if child.Some? then [child.value] else [])
    && s.family.children.Keys == (if child.Some? then {child.value} else {})
    && (child.Some? ==> s.family.children[child.value].Alive() == alive)
  }

  /** A log that the fold accepts, and where it leads. */
  ghost predicate Leads(log: seq<Record>, id: RunId, n: nat, child: Option<RunId>, alive: bool) {
    Accepts(Fresh(id, SCOPE), log) && Underway(After(Fresh(id, SCOPE), log).state, id, n, child, alive)
  }

  lemma AdmitStep(f: Fold, id: RunId, parent: Option<RunId>)
    requires f == Fresh(id, SCOPE)
    ensures Step(f, Of(id, 1, Admitted(parent))).Accepted?
    ensures Underway(Step(f, Of(id, 1, Admitted(parent))).value.state, id, 1, None, true)
  {
  }

  lemma SpawnStep(f: Fold, id: RunId, child: RunId)
    requires Underway(f.state, id, 1, None, true)
    ensures Step(f, Of(id, 2, Spawned(child))).Accepted?
    ensures Underway(Step(f, Of(id, 2, Spawned(child))).value.state, id, 2, Some(child), true)
  {
  }

  lemma EndStep(f: Fold, id: RunId, child: RunId)
    requires Underway(f.state, id, 2, Some(child), true)
    ensures Step(f, Of(id, 3, ChildEnded(child))).Accepted?
    ensures Underway(Step(f, Of(id, 3, ChildEnded(child))).value.state, id, 3, Some(child), false)
  {
  }

  function AdmittedLog(id: RunId, parent: Option<RunId>): seq<Record> {
    [Of(id, 1, Admitted(parent))]
  }

  function SpawningLog(id: RunId, parent: Option<RunId>, child: RunId): seq<Record> {
    AdmittedLog(id, parent) + [Of(id, 2, Spawned(child))]
  }

  function ChildEndedLog(id: RunId, parent: Option<RunId>, child: RunId): seq<Record> {
    SpawningLog(id, parent, child) + [Of(id, 3, ChildEnded(child))]
  }

  function SettledLog(id: RunId, parent: Option<RunId>): seq<Record> {
    AdmittedLog(id, parent) + [Of(id, 2, RunSettled(Completed, None, None))]
  }

  lemma AdmittedIs(id: RunId, parent: Option<RunId>)
    ensures Leads(AdmittedLog(id, parent), id, 1, None, true)
  {
    var f, r := Fresh(id, SCOPE), Of(id, 1, Admitted(parent));
    assert Accepts(f, []) && [] + [r] == [r];
    AdmitStep(f, id, parent);
    OneMore(f, [], r);
  }

  lemma SpawningIs(id: RunId, parent: Option<RunId>, child: RunId)
    ensures Leads(SpawningLog(id, parent, child), id, 2, Some(child), true)
  {
    var f, log := Fresh(id, SCOPE), AdmittedLog(id, parent);
    AdmittedIs(id, parent);
    SpawnStep(After(f, log), id, child);
    OneMore(f, log, Of(id, 2, Spawned(child)));
  }

  lemma ChildEndedIs(id: RunId, parent: Option<RunId>, child: RunId)
    ensures Leads(ChildEndedLog(id, parent, child), id, 3, Some(child), false)
  {
    var f, log := Fresh(id, SCOPE), SpawningLog(id, parent, child);
    SpawningIs(id, parent, child);
    EndStep(After(f, log), id, child);
    OneMore(f, log, Of(id, 3, ChildEnded(child)));
  }

  lemma SettledIs(id: RunId, parent: Option<RunId>)
    ensures Accepts(Fresh(id, SCOPE), SettledLog(id, parent))
    ensures var s := After(Fresh(id, SCOPE), SettledLog(id, parent)).state;
            s.life.admitted && s.life.terminal.Some? && s.family.order == []
  {
    var f, log, r := Fresh(id, SCOPE), AdmittedLog(id, parent), Of(id, 2, RunSettled(Completed, None, None));
    AdmittedIs(id, parent);
    assert Step(After(f, log), r).Accepted?;
    Endings.SettleStep(After(f, log), r);
    OneMore(f, log, r);
  }

  /** Logs by Run. */
  function Held(logOf: RunId -> seq<Record>, ids: set<RunId>): Rollups.Logs {
    map id | id in ids :: Rollups.Stored(SCOPE, logOf(id))
  }

  lemma {:induction false} HeldIs(logOf: RunId -> seq<Record>, ids: set<RunId>)
    requires forall id :: id in ids ==> Accepts(Fresh(id, SCOPE), logOf(id))
    ensures Rollups.AllAccepted(Held(logOf, ids)) && Rollups.FoldedStore(Held(logOf, ids)).Keys == ids
    ensures forall id :: id in ids ==>
              Rollups.FoldedStore(Held(logOf, ids))[id] == After(Fresh(id, SCOPE), logOf(id)).state
  {
  }

  /** A Run whose child ended, having spawned one that goes on. */
  predicate CutShort(logs: Rollups.Logs, top: RunId, child: RunId, below: RunId) {
    && top != child && top != below && child != below && logs.Keys == {top, child, below}
    && logs[top] == Rollups.Stored(SCOPE, ChildEndedLog(top, None, child))
    && logs[child] == Rollups.Stored(SCOPE, SpawningLog(child, Some(top), below))
    && logs[below] == Rollups.Stored(SCOPE, AdmittedLog(below, Some(child)))
  }

  /** Where the log a store holds leads. */
  ghost predicate LeadsIn(logs: Rollups.Logs, id: RunId, n: nat, child: Option<RunId>, alive: bool) {
    id in logs && logs[id].scope == SCOPE && Leads(logs[id].log, id, n, child, alive)
  }

  lemma {:induction false} FoldedLeads(logs: Rollups.Logs, id: RunId, n: nat, child: Option<RunId>, alive: bool)
    requires Rollups.AllAccepted(logs) && LeadsIn(logs, id, n, child, alive)
    ensures id in Rollups.FoldedStore(logs) && Underway(Rollups.FoldedStore(logs)[id], id, n, child, alive)
  {
    assert Rollups.FoldedStore(logs)[id] == After(Fresh(id, SCOPE), logs[id].log).state;
  }

  lemma AmongThree<T>(s: set<T>, a: T, b: T, c: T)
    requires s == {a, b, c}
    ensures forall x :: x in s ==> x == a || x == b || x == c
  {
  }

  lemma {:induction false} CutShortLeads(logs: Rollups.Logs, top: RunId, child: RunId, below: RunId)
    requires CutShort(logs, top, child, below)
    ensures LeadsIn(logs, top, 3, Some(child), false)
    ensures LeadsIn(logs, child, 2, Some(below), true)
    ensures LeadsIn(logs, below, 1, None, true)
  {
    ChildEndedIs(top, None, child);
    SpawningIs(child, Some(top), below);
    AdmittedIs(below, Some(child));
  }

  lemma {:induction false} AllLead(logs: Rollups.Logs, a: RunId, b: RunId, c: RunId)
    requires logs.Keys == {a, b, c}
    requires forall id :: id == a || id == b || id == c ==> Accepts(Fresh(id, logs[id].scope), logs[id].log)
    ensures Rollups.AllAccepted(logs)
  {
    AmongThree(logs.Keys, a, b, c);
  }

  lemma {:induction false} CutShortAccepted(logs: Rollups.Logs, top: RunId, child: RunId, below: RunId)
    requires CutShort(logs, top, child, below)
    ensures Rollups.AllAccepted(logs)
    ensures var store := Rollups.FoldedStore(logs);
            && top in store && Underway(store[top], top, 3, Some(child), false)
            && child in store && Underway(store[child], child, 2, Some(below), true)
            && below in store && Underway(store[below], below, 1, None, true)
  {
    CutShortLeads(logs, top, child, below);
    AllLead(logs, top, child, below);
    FoldedLeads(logs, top, 3, Some(child), false);
    FoldedLeads(logs, child, 2, Some(below), true);
    FoldedLeads(logs, below, 1, None, true);
  }

  lemma {:induction false} WalkAlone(store: Store, id: RunId, depth: nat)
    requires Lawful(store) && Known(store, id, depth) && store[id].family.order == []
    ensures |Parts(store, id, depth)| == 1
    ensures Final(store, id, depth) <==> store[id].life.terminal.Some?
  {
  }

  lemma {:induction false} WalkOne(store: Store, id: RunId, child: RunId, depth: nat)
    requires Lawful(store) && Known(store, id, depth) && store[id].family.order == [child]
    requires depth > 0 ==> Known(store, child, depth - 1)
    ensures |Parts(store, id, depth)| == 1 + (if depth > 0 then |Parts(store, child, depth - 1)| else 1)
    ensures Final(store, id, depth)
            <==> if depth > 0 then Final(store, child, depth - 1) else !store[id].family.children[child].Alive()
  {
    assert store[id].family.order[0] == child;
    assert ChildParts(store, id, depth, 1) == ChildParts(store, id, depth, 0) + OneChild(store, id, depth, 0);
    FinalIs(store, id, depth);
    assert OneFinal(store, id, depth, 0)
           <==> if depth > 0 then Final(store, child, depth - 1) else !store[id].family.children[child].Alive();
  }

  /** Without depth the walk stops at the child, whose own child goes on: complete, though two
      of the three Runs are counted. A deeper walk says that it is not. */
  lemma {:induction false} CutShortComplete(logs: Rollups.Logs, top: RunId, child: RunId, below: RunId)
    requires CutShort(logs, top, child, below)
    ensures Rollups.AllAccepted(logs) && Lawful(Rollups.FoldedStore(logs))
    ensures var store := Rollups.FoldedStore(logs);
            && Known(store, top, 0) && Final(store, top, 0) && |Parts(store, top, 0)| == 2
            && Known(store, top, 2) && !Final(store, top, 2) && |Parts(store, top, 2)| == 3
  {
    CutShortAccepted(logs, top, child, below);
    Rollups.AcceptedLawful(logs);
    WalkCutShort(Rollups.FoldedStore(logs), top, child, below);
  }

  lemma {:induction false} WalkCutShort(store: Store, top: RunId, child: RunId, below: RunId)
    requires Lawful(store) && top in store && child in store && below in store
    requires Underway(store[top], top, 3, Some(child), false)
    requires Underway(store[child], child, 2, Some(below), true)
    requires Underway(store[below], below, 1, None, true)
    ensures Known(store, top, 0) && Final(store, top, 0) && |Parts(store, top, 0)| == 2
    ensures Known(store, top, 2) && !Final(store, top, 2) && |Parts(store, top, 2)| == 3
  {
    WalkOne(store, top, child, 0);
    WalkAlone(store, below, 0);
    WalkOne(store, child, below, 1);
    WalkOne(store, top, child, 2);
  }

  /** There is such a store of logs. */
  lemma {:induction false} OneCutShort(top: RunId, child: RunId, below: RunId)
    requires top != child && top != below && child != below
    ensures exists logs :: CutShort(logs, top, child, below)
  {
    var logs: Rollups.Logs := map[
      top := Rollups.Stored(SCOPE, ChildEndedLog(top, None, child)),
      child := Rollups.Stored(SCOPE, SpawningLog(child, Some(top), below)),
      below := Rollups.Stored(SCOPE, AdmittedLog(below, Some(child)))];
    assert CutShort(logs, top, child, below);
  }

  /** A Run at work whose only child has settled. */
  predicate RootAtWork(logs: Rollups.Logs, top: RunId, child: RunId) {
    && top != child && logs.Keys == {top, child}
    && logs[top] == Rollups.Stored(SCOPE, SpawningLog(top, None, child))
    && logs[child] == Rollups.Stored(SCOPE, SettledLog(child, Some(top)))
  }

  /** There is such a store of logs. */
  lemma {:induction false} OneRootAtWork(top: RunId, child: RunId)
    requires top != child
    ensures exists logs :: RootAtWork(logs, top, child)
  {
    var logs: Rollups.Logs := map[
      top := Rollups.Stored(SCOPE, SpawningLog(top, None, child)),
      child := Rollups.Stored(SCOPE, SettledLog(child, Some(top)))];
    assert RootAtWork(logs, top, child);
  }

  lemma {:induction false} RootAtWorkAccepted(logs: Rollups.Logs, top: RunId, child: RunId)
    requires RootAtWork(logs, top, child)
    ensures Rollups.AllAccepted(logs)
    ensures var store := Rollups.FoldedStore(logs);
            && top in store && Underway(store[top], top, 2, Some(child), true)
            && child in store && store[child].life.admitted && store[child].life.terminal.Some?
            && store[child].family.order == []
  {
    SpawningIs(top, None, child);
    SettledIs(child, Some(top));
    assert LeadsIn(logs, top, 2, Some(child), true);
    assert logs.Keys == {top, child, child};
    AllLead(logs, top, child, child);
    FoldedLeads(logs, top, 2, Some(child), true);
    assert Rollups.FoldedStore(logs)[child] == After(Fresh(child, SCOPE), logs[child].log).state;
  }

  /** Its totals are complete at a depth that reaches every Run, and will change. */
  lemma {:induction false} RootAtWorkComplete(logs: Rollups.Logs, top: RunId, child: RunId)
    requires RootAtWork(logs, top, child)
    ensures Rollups.AllAccepted(logs) && Lawful(Rollups.FoldedStore(logs))
    ensures var store := Rollups.FoldedStore(logs);
            && Known(store, top, 1) && Reaches(store, top, 1) && Final(store, top, 1)
            && store[top].life.terminal.None?
  {
    RootAtWorkAccepted(logs, top, child);
    Rollups.AcceptedLawful(logs);
    WalkRootAtWork(Rollups.FoldedStore(logs), top, child);
  }

  lemma {:induction false} WalkRootAtWork(store: Store, top: RunId, child: RunId)
    requires Lawful(store) && top in store && child in store
    requires Underway(store[top], top, 2, Some(child), true)
    requires store[child].life.admitted && store[child].life.terminal.Some? && store[child].family.order == []
    ensures Known(store, top, 1) && Reaches(store, top, 1) && Final(store, top, 1)
  {
    WalkAlone(store, child, 0);
    WalkOne(store, top, child, 1);
  }

  // ------------------------------------------------ records without admission

  /** A Run stopped before it was admitted: nothing is streamed, and the snapshot says working. */
  lemma UnadmittedIsSilent(answer: Option<string>)
    ensures Accepts(Fresh(RUN, SCOPE), [At(1, AbortRequested)]) && !Orderly([At(1, AbortRequested)])
    ensures Streamed([At(1, AbortRequested)], answer, DefaultSuspendState) == []
    ensures TaskStateOf(After(Fresh(RUN, SCOPE), [At(1, AbortRequested)]).state, DefaultSuspendState) == Working
  {
    var f, r := Fresh(RUN, SCOPE), At(1, AbortRequested);
    assert Accepts(f, []) && [] + [r] == [r];
    assert Step(f, r).Accepted?;
    OneMore(f, [], r);
    assert Init([r]) == [] && Streamed([], answer, DefaultSuspendState) == [];
  }

  // ------------------------------------------------- a signature of one symbol

  /** A card signed with one symbol under a known key is refused by the decoder. */
  lemma OneSymbolUndecodable(
      r: Signing.Request, payload: seq<Bytes.Byte>, verifiers: Signing.Verifiers, requireAll: bool,
      loads: Signing.Loads)
    requires Signing.ReadsCanonical(loads)
    requires r.signer.kid in verifiers && verifiers[r.signer.kid].alg == r.signer.alg
    ensures var entry := Signing.Signature(Signing.Protected(r), "A", None);
            Signing.VerdictOf(Signing.JudgedAll([entry], payload, verifiers, loads), requireAll)
            == Signing.Refused(Signing.Undecodable)
  {
    Signing.LoneUndecodable(r, "A", payload, verifiers, requireAll, loads);
  }

  /** What follows the padding is dropped, a dot among it. */
  lemma DotDropped()
    ensures Bytes.B64Decode("QQ==.") == Some([0x41])
  {
    var start, rest := Bytes.Quad(0, 0, 0, []), "==." + "===";
    var two := Bytes.Quad(2, 0, 0, [0x41]);
    assert Bytes.Ascii("QQ==.") && "QQ==." + Bytes.Padding(5) == "QQ" + rest;
    Bytes.DecodeAll("QQ", rest, start);
    assert Bytes.TakeAll("QQ", start) == two by {
      assert "QQ"[1..] == "Q" && "Q"[1..] == "";
      assert Bytes.ValueOf('Q') == Some(16) && [] + [0x41] == [0x41];
    }
    assert rest[0] == '=' && rest[1..] == "=." + "===";
    assert Bytes.Decode(rest[1..], two.(pads := 1)) == Some([0x41]);
  }
}
