/** The fold as a function: one record at a time, from run state to run state or to
    the reason why no legal writer could have appended that record.

    The state is grouped by what changes together; `RunStateView` (StateView.dfy) is
    the same state as one object with flat, mutable fields, folded in place. */
module Reducer {
  import opened Values
  import opened Metering
  import opened Records

  datatype CorruptionReason =
    | MultipleOpenOperations
    | UnknownOperation
    | RecordAfterFinish
    | NonConsecutiveSeq
    | NonConsecutiveAttempt
    | QueueAfterAbort
    | InvalidQueueCancellation
    | InconsistentStep
    | ToolCallMismatch
    | DuplicateToolInvocation
    | ProvisionedEntryMismatch
    | InvalidDeferredHandle
    | InvalidCompactionReason
    | InconsistentCost

  /** `Refused` is a raised `CorruptLog`; `Misused` is a raised `ValueError`. */
  datatype Outcome<+T> =
    | Accepted(value: T)
    | Refused(reason: CorruptionReason, seqNo: nat)
    | Misused

  const RUN_CODE := "run_code"
  const READ_TOOL_OUTPUT := "read_tool_output"
  const SET_STATE := "set_state"
  const HANDLE := "handle"
  const STEP_MODE := "step_mode"

  // ---------------------------------------------------------------- state

  datatype Admission = Admission(
    versionHash: string, deadlineAt: Option<int>, parentRunId: Option<RunId>,
    delegationDepth: nat, continuesRunId: Option<RunId>, idempotencyKey: Option<string>,
    runInput: Dict, replaysRunId: Option<RunId>, replayFromStep: Option<string>,
    breakpoints: seq<string>)

  const NOT_ADMITTED := Admission("", None, None, 0, None, None, map[], None, None, [])

  datatype Life = Life(
    admitted: bool, admission: Admission, attemptCount: nat, currentAttempt: Option<string>,
    settled: bool, terminal: Option<TerminalState>, output: Option<Dict>,
    failure: Option<ToolFailure>)

  datatype Turns = Turns(turn: nat, turnOpen: bool, callOpen: bool)

  datatype OpenToolCall = OpenToolCall(
    callId: CallId, tool: string, arguments: Dict, turn: nat, atStep: Option<StepId>,
    interruptible: bool, safeToRetry: bool, startedAt: int)

  datatype ToolResult = ToolResult(
    callId: CallId, tool: string, outcome: ToolOutcome, result: Json,
    failure: Option<ToolFailure>, resultHandle: Option<string>, preview: Option<string>,
    turn: nat, blobKey: Option<string>, contentType: Option<string>,
    attachments: seq<Attachment>)

  datatype Calls = Calls(
    open: map<CallId, OpenToolCall>, results: seq<ToolResult>, handles: map<string, CallId>,
    programs: set<CallId>, programOpen: set<CallId>, preservedBytes: nat, programCalls: nat)

  /** What `call_digest` hashes. The digest stands for its pre-image: two different
      pre-images are taken to have different digests. */
  datatype Digest =
    | CallDigest(tool: string, arguments: Dict)
    | AnswerDigest(tool: string, arguments: Dict, answer: Json)

  datatype Tally = Tally(resultDigest: Digest, count: nat)

  datatype StepRecord = StepRecord(
    stepId: StepId, name: string, kind: string, attemptNumber: nat, input: Dict,
    completed: bool, output: Option<Dict>, failure: Option<ToolFailure>,
    childRunId: Option<RunId>, path: seq<PathElement>, parentStepId: Option<StepId>,
    iteration: Option<nat>, skipped: bool, willRetry: bool, retryAt: Option<int>,
    startedAt: int, completedAt: Option<int>, startedSeq: nat, completedSeq: Option<nat>,
    replayedFrom: Option<RunId>)
  {
    predicate Settled() {
      completed && !willRetry
    }
  }

  datatype Steps = Steps(steps: map<StepId, StepRecord>, starts: nat, updates: Dict)

  datatype Entry = Entry(entryId: string, queue: QueueKind, payload: Dict, enqueuedSeq: nat)

  datatype Queues = Queues(
    steer: seq<Entry>, followUp: seq<Entry>, nextRun: seq<Entry>, abortSeq: Option<nat>)
  {
    function Of(k: QueueKind): seq<Entry> {
      match k
      case Steer => steer
      case FollowUp => followUp
      case NextRun => nextRun
    }

    function With(k: QueueKind, q: seq<Entry>): Queues {
      match k
      case Steer => this.(steer := q)
      case FollowUp => this.(followUp := q)
      case NextRun => this.(nextRun := q)
    }
  }

  datatype StepResume = StepResume(
    reason: SuspendReason, payload: Dict, approved: Option<bool>, seqNo: nat)

  /** The open suspension, if any. */
  datatype Pause = Pause(
    reason: Option<SuspendReason>, expiresAt: Option<int>, suspendedAt: Option<int>,
    pendingCall: Option<CallId>, question: Option<string>, stepId: Option<StepId>,
    stepName: Option<string>, payloadSchema: Dict, event: Option<string>,
    wakeAt: Option<int>)

  const NO_PAUSE := Pause(None, None, None, None, None, None, None, map[], None, None)

  datatype Waiting = Waiting(
    suspended: bool, pause: Pause, resumedSinceAttempt: bool, suspendedSeconds: nat,
    resumePayloads: map<CallId, Dict>, stepResumes: map<StepId, seq<StepResume>>, stepMode: bool)

  datatype ChildRun = ChildRun(
    runId: RunId, name: string, callId: CallId, versionHash: string, depth: nat,
    background: bool, tools: seq<string>, model: string, spawnedSeq: nat,
    terminal: Option<TerminalState>, output: Option<Dict>, failure: Option<ToolFailure>,
    usage: Usage, unreportedUsageCalls: nat, cost: Option<Cost>, unpricedModelCalls: nat,
    messagesSent: nat, finishedSeq: Option<nat>)
  {
    predicate Alive() {
      terminal.None?
    }
  }

  /** `order` is the insertion order of the source's dictionary. */
  datatype Family = Family(children: map<RunId, ChildRun>, order: seq<RunId>)

  datatype Bill = Bill(
    usage: Usage, unreportedUsageCalls: nat, cost: Option<Cost>, unpricedModelCalls: nat,
    providerReportedCosts: nat, modelCalls: nat, failedModelCalls: nat,
    transientRetriesUsed: nat, lastPromptTokens: nat, compactionCalls: nat)

  const NO_BILL := Bill(NO_USAGE, 0, None, 0, 0, 0, 0, 0, 0, 0)

  datatype Compaction = Compaction(boundary: nat, summaries: seq<string>)

  datatype Shown = Shown(tasks: seq<Json>, components: seq<Json>)

  datatype State = State(
    runId: RunId, scope: Scope, headSeq: nat, life: Life, turns: Turns, calls: Calls,
    failureStreaks: map<string, nat>, repeatCounts: map<Digest, Tally>, steps: Steps,
    queues: Queues, waiting: Waiting, approvals: map<CallId, bool>, family: Family,
    bill: Bill, compaction: Compaction, shown: Shown)

  /** What `reduce` keeps in local variables beside the state. */
  datatype Locals = Locals(
    started: set<CallId>, settled: set<CallId>, enqueued: map<string, Entry>,
    cancelled: set<string>, consumed: set<string>)

  datatype Fold = Fold(state: State, locals: Locals)

  function FreshState(runId: RunId, scope: Scope): State {
    State(runId, scope, 0,
          Life(false, NOT_ADMITTED, 0, None, false, None, None, None),
          Turns(0, false, false),
          Calls(map[], [], map[], {}, {}, 0, 0),
          map[],
          map[],
          Steps(map[], 0, map[]),
          Queues([], [], [], None),
          Waiting(false, NO_PAUSE, false, 0, map[], map[], false),
          map[],
          Family(map[], []),
          NO_BILL,
          Compaction(0, []),
          Shown([], []))
  }

  /** The local variables as `reduce` sets them from the state it starts on. */
  function LocalsOf(s: State): Locals {
    var settled := set i | 0 <= i < |s.calls.results| :: s.calls.results[i].callId;
    Locals(s.calls.open.Keys + settled, settled, PendingById(s.queues), {}, {})
  }

  function ById(q: seq<Entry>): map<string, Entry> {
    if q == [] then map[] else ById(Init(q))[Last(q).entryId := Last(q)]
  }

  function PendingById(q: Queues): map<string, Entry> {
    ById(q.steer + q.followUp + q.nextRun)
  }

  function StartFrom(s: State): Fold {
    Fold(s, LocalsOf(s))
  }

  function Fresh(runId: RunId, scope: Scope): Fold {
    StartFrom(FreshState(runId, scope))
  }

  // --------------------------------------------------------------- checks

  /** Why the body of `r` cannot follow, or None. */
  function Check(f: Fold, r: Record): Option<CorruptionReason> {
    var s, b := f.state, r.body;
    match b
    case RunAdmitted(_, _, _, _, _, _, _, _, _, _, _) =>
      if s.life.admitted then Some(MultipleOpenOperations) else None
    case AttemptStarted(n) =>
      if !s.life.admitted then Some(UnknownOperation)
      else if n != s.life.attemptCount + 1 then Some(NonConsecutiveAttempt)
      else None
    case RunSettled(_, _, _) => None
    case TurnStarted(turn) =>
      if s.turns.turnOpen then Some(MultipleOpenOperations)
      else if turn != s.turns.turn + 1 then Some(NonConsecutiveAttempt)
      else None
    case ModelCallStarted(turn, _) =>
      if !s.turns.turnOpen then Some(UnknownOperation)
      else if turn != s.turns.turn then Some(UnknownOperation)
      else if s.turns.callOpen then Some(MultipleOpenOperations)
      else None
    case ModelCallFinished(turn, _, _, _, cost, _, _) =>
      if !s.turns.callOpen || turn != s.turns.turn then Some(UnknownOperation)
      else CheckCost(s.bill, cost)
    case ModelCallFailed(turn, _, _, _) =>
      if !s.turns.callOpen || turn != s.turns.turn then Some(UnknownOperation) else None
    case ToolCallStarted(callId, tool, arguments, turn, _, _, _, parent) =>
      if callId in f.locals.started then Some(DuplicateToolInvocation)
      else if turn != (if s.turns.turn < 1 then 1 else s.turns.turn) then Some(UnknownOperation)
      else if BadHandle(s.calls, tool, arguments, parent) then Some(InvalidDeferredHandle)
      else None
    case ToolCallFinished(callId, _, _, _, _, _, _, _, _, _) =>
      if callId !in s.calls.open then Some(ToolCallMismatch) else None
    case StepStarted(stepId, _, _, n, _, _, _, _, _) =>
      if stepId in s.steps.steps then
        var existing := s.steps.steps[stepId];
        if existing.completed && !existing.willRetry then Some(InconsistentStep)
        else if n != existing.attemptNumber + 1 then Some(NonConsecutiveAttempt)
        else None
      else if n != 1 then Some(NonConsecutiveAttempt)
      else None
    case StepCompleted(stepId, _, _, _, _, _, _) =>
      if stepId !in s.steps.steps || s.steps.steps[stepId].completed
      then Some(InconsistentStep) else None
    case AbortRequested => None
    case QueueEnqueued(queue, entryId, _) =>
      if queue != NextRun && s.queues.abortSeq.Some? && r.seqNo > s.queues.abortSeq.value
      then Some(QueueAfterAbort)
      else if entryId in f.locals.enqueued then Some(ProvisionedEntryMismatch)
      else None
    case QueueCancelled(entryId) =>
      if entryId !in f.locals.enqueued || f.locals.enqueued[entryId].enqueuedSeq >= r.seqNo
         || entryId in f.locals.cancelled || entryId in f.locals.consumed
      then Some(InvalidQueueCancellation) else None
    case QueueConsumed(entryId) =>
      if entryId !in f.locals.enqueued || entryId in f.locals.cancelled
         || entryId in f.locals.consumed
      then Some(ProvisionedEntryMismatch) else None
    case Suspended(reason, _, _, _, _, _, _, pending, _) =>
      if s.waiting.suspended then Some(MultipleOpenOperations)
      else if reason == Approval && pending.Some? && pending.value !in s.calls.open
      then Some(ToolCallMismatch)
      else None
    case Resumed(_, _) =>
      if !s.waiting.suspended then Some(UnknownOperation) else None
    case CompactionApplied(from, to, _, _, _, cost) =>
      if to < from then Some(InvalidCompactionReason)
      else if to >= r.seqNo then Some(InvalidCompactionReason)
      else CheckCost(s.bill, cost)
    case TaskListUpdated(_) => None
    case ComponentShown(_) => None
    case SubagentSpawned(child, name, _, _, _, _, _, _) =>
      if child in s.family.children then Some(MultipleOpenOperations)
      else if LiveName(s.family, name) then Some(MultipleOpenOperations)
      else None
    case SubagentMessaged(child) =>
      if child !in s.family.children then Some(UnknownOperation) else None
    case SubagentFinished(child, _, _, _, _, _, _, _, _) =>
      if child !in s.family.children then Some(UnknownOperation)
      else if !s.family.children[child].Alive() then Some(MultipleOpenOperations)
      else None
  }

  function CheckCost(b: Bill, cost: Option<Cost>): Option<CorruptionReason> {
    if cost.Some? && b.cost.Some? && b.cost.value.currency != cost.value.currency
    then Some(InconsistentCost) else None
  }

  predicate BadHandle(c: Calls, tool: string, arguments: Dict, parent: Option<CallId>) {
    && tool == READ_TOOL_OUTPUT
    && HANDLE in arguments
    && arguments[HANDLE].Text?
    && parent.None?
    && arguments[HANDLE].s !in c.handles
  }

  predicate LiveName(f: Family, name: string) {
    exists c :: c in f.children && f.children[c].name == name && f.children[c].Alive()
  }

  // -------------------------------------------------------------- updates

  function LifeStep(l: Life, r: Record): Life {
    match r.body
    case RunAdmitted(hash, input, key, deadline, parent, depth, replays, from, breakpoints, _, continues) =>
      l.(admitted := true,
         admission := Admission(hash, Some(deadline), parent, depth, continues, key, input,
                                replays, from, breakpoints))
    case AttemptStarted(n) => l.(attemptCount := n, currentAttempt := r.attemptId)
    case RunSettled(terminal, output, failure) =>
      l.(settled := true, terminal := Some(terminal), output := output, failure := failure)
    case _ => l
  }

  function TurnsStep(t: Turns, b: Body): Turns {
    match b
    case AttemptStarted(_) => t.(turnOpen := false, callOpen := false)
    case TurnStarted(turn) => t.(turn := turn, turnOpen := true)
    case ModelCallStarted(_, _) => t.(callOpen := true)
    case ModelCallFinished(_, _, _, _, _, _, _) => t.(turnOpen := false, callOpen := false)
    case ModelCallFailed(_, _, _, _) => t.(turnOpen := false, callOpen := false)
    case Suspended(_, _, _, _, _, _, _, _, _) => t.(turnOpen := false, callOpen := false)
    case RunSettled(_, _, _) => t.(turnOpen := false, callOpen := false)
    case _ => t
  }

  function CallsStep(c: Calls, r: Record): Calls {
    match r.body
    case ToolCallStarted(id, tool, arguments, turn, atStep, interruptible, safe, parent) =>
      var ofProgram := tool != RUN_CODE && parent.Some? && parent.value in c.programs;
      Calls(
        c.open[id := OpenToolCall(id, tool, arguments, turn, atStep, interruptible, safe, r.at)],
        c.results,
        c.handles,
        if tool == RUN_CODE then c.programs + {id} else c.programs,
        if ofProgram then c.programOpen + {id} else c.programOpen,
        c.preservedBytes,
        if ofProgram then c.programCalls + 1 else c.programCalls)
    case ToolCallFinished(id, outcome, result, failure, handle, preview, bytes, blob, ctype, attachments) =>
      if id !in c.open then c else
      Calls(
        c.open - {id},
        c.results + [ToolResult(id, c.open[id].tool, outcome, result, failure, handle, preview,
                                c.open[id].turn, blob, ctype, attachments)],
        WithAttachments(if handle.Some? then c.handles[handle.value := id] else c.handles,
                        attachments, id),
        c.programs,
        c.programOpen - {id},
        if id in c.programOpen && handle.Some? then c.preservedBytes + bytes else c.preservedBytes,
        c.programCalls)
    case _ => c
  }

  function WithAttachments(handles: map<string, CallId>, attachments: seq<Attachment>, id: CallId)
    : map<string, CallId>
  {
    if attachments == [] then handles
    else
      var before := WithAttachments(handles, Init(attachments), id);
      if Last(attachments).readable then before[Last(attachments).handle := id] else before
  }

  /** The answer a finished call is keyed by: its blob reference once offloaded. */
  function Answer(b: Body): Json
    requires b.ToolCallFinished?
  {
    if b.resultBlobKey.None? then b.result else Text(b.resultBlobKey.value)
  }

  /** Failures of one tool in a row; an abort leaves the streak as it is. */
  function StreaksStep(streaks: map<string, nat>, open: map<CallId, OpenToolCall>, b: Body): map<string, nat> {
    if b.ToolCallFinished? && b.callId in open
    then StreakStep(streaks, open[b.callId].tool, b.outcome) else streaks
  }

  /** The call and the answer a record adds to a repeat tally, if it adds any. */
  function Counted(open: map<CallId, OpenToolCall>, b: Body): Option<(Digest, Digest)> {
    if b.ToolCallFinished? && b.callId in open then CountedFor(open[b.callId], b) else None
  }

  /** Only an OK answer counts. */
  function CountedFor(call: OpenToolCall, b: Body): Option<(Digest, Digest)>
    requires b.ToolCallFinished?
  {
    if b.outcome == ToolOutcome.Ok
    then Some((CallDigest(call.tool, call.arguments), AnswerDigest(call.tool, call.arguments, Answer(b))))
    else None
  }

  function RepeatsStep(counts: map<Digest, Tally>, counted: Option<(Digest, Digest)>): map<Digest, Tally> {
    if counted.Some? then RepeatStep(counts, counted.value.0, counted.value.1) else counts
  }

  function StreakStep(streaks: map<string, nat>, tool: string, outcome: ToolOutcome): map<string, nat> {
    match outcome
    case Ok => streaks - {tool}
    case Error => streaks[tool := (if tool in streaks then streaks[tool] else 0) + 1]
    case Unknown => streaks[tool := (if tool in streaks then streaks[tool] else 0) + 1]
    case Aborted => streaks
  }

  function RepeatStep(counts: map<Digest, Tally>, key: Digest, answer: Digest): map<Digest, Tally> {
    if key in counts && counts[key].resultDigest == answer
    then counts[key := Tally(answer, counts[key].count + 1)]
    else counts[key := Tally(answer, 1)]
  }

  function StepsStep(s: Steps, r: Record): Steps {
    match r.body
    case StepStarted(id, name, kind, n, input, path, parent, iteration, replayed) =>
      s.(steps := s.steps[id := StepRecord(
                            id, name, kind, n, input, false, None, None, None, path, parent,
                            iteration, false, false, None, r.at, None, r.seqNo, None, replayed)],
         starts := s.starts + 1)
    case StepCompleted(id, output, failure, child, skipped, willRetry, retryAt) =>
      if id !in s.steps then s else
      var began := s.steps[id];
      s.(steps := s.steps[id := began.(
                            completed := true, output := output, failure := failure,
                            childRunId := child, skipped := skipped, willRetry := willRetry,
                            retryAt := retryAt, completedAt := Some(r.at),
                            completedSeq := Some(r.seqNo))],
         updates := if began.kind == SET_STATE && output.Some? && failure.None? && !skipped
                    then s.updates + output.value else s.updates)
    case _ => s
  }

  function RemoveEntry(q: seq<Entry>, id: string): seq<Entry> {
    if q == [] then []
    else if q[0].entryId == id then q[1..]
    else [q[0]] + RemoveEntry(q[1..], id)
  }

  function QueuesStep(q: Queues, l: Locals, r: Record): Queues {
    match r.body
    case AbortRequested => if q.abortSeq.None? then q.(abortSeq := Some(r.seqNo)) else q
    case QueueEnqueued(kind, id, payload) =>
      q.With(kind, q.Of(kind) + [Entry(id, kind, payload, r.seqNo)])
    case QueueCancelled(id) => Withdrawn(q, l, id)
    case QueueConsumed(id) => Withdrawn(q, l, id)
    case _ => q
  }

  function Withdrawn(q: Queues, l: Locals, id: string): Queues {
    if id !in l.enqueued then q else
    var kind := l.enqueued[id].queue;
    q.With(kind, RemoveEntry(q.Of(kind), id))
  }

  function WaitingStep(w: Waiting, r: Record): Waiting {
    match r.body
    case RunAdmitted(_, _, _, _, _, _, _, _, _, stepMode, _) => w.(stepMode := stepMode)
    case AttemptStarted(_) => w.(resumedSinceAttempt := false)
    case Suspended(reason, schema, expires, step, stepName, event, wake, pending, question) =>
      w.(suspended := true,
         pause := Pause(Some(reason), Some(expires), Some(r.at), pending, question, step, stepName,
                        schema, event, wake))
    case Resumed(payload, approved) => ResumedWaiting(w, payload, approved, r.at, r.seqNo)
    case _ => w
  }

  /** A resume answers the call and the step that were waiting, and the wait is over. */
  function ResumedWaiting(w: Waiting, payload: Dict, approved: Option<bool>, at: int, seqNo: nat): Waiting {
    Woken(StepAnswered(CallAnswered(w, payload), payload, approved, seqNo), at)
  }

  function CallAnswered(w: Waiting, payload: Dict): Waiting {
    if w.pause.pendingCall.Some? && |payload| > 0
    then w.(resumePayloads := w.resumePayloads[w.pause.pendingCall.value := payload]) else w
  }

  function StepAnswered(w: Waiting, payload: Dict, approved: Option<bool>, seqNo: nat): Waiting {
    var p := w.pause;
    if p.stepId.None? || p.reason.None? then w
    else
      w.(stepResumes := w.stepResumes[p.stepId.value := ResumesOf(w, p.stepId.value)
           + [StepResume(p.reason.value, payload, approved, seqNo)]],
         stepMode := if p.reason.value == Breakpoint && STEP_MODE in payload && payload[STEP_MODE].Bool?
                     then payload[STEP_MODE].b else w.stepMode)
  }

  function Woken(w: Waiting, at: int): Waiting {
    w.(suspended := false, pause := NO_PAUSE, resumedSinceAttempt := true,
       suspendedSeconds := w.suspendedSeconds + Waited(w.pause, at))
  }

  /** `max(waited, 0)` since the suspension, when its time is known. */
  function Waited(p: Pause, at: int): nat {
    if p.suspendedAt.Some? && at > p.suspendedAt.value then at - p.suspendedAt.value else 0
  }

  function ResumesOf(w: Waiting, step: StepId): seq<StepResume> {
    if step in w.stepResumes then w.stepResumes[step] else []
  }

  function ApprovalsStep(made: map<CallId, bool>, p: Pause, b: Body): map<CallId, bool> {
    if b.Resumed? && p.pendingCall.Some? && b.approved.Some?
    then made[p.pendingCall.value := b.approved.value] else made
  }

  function FamilyStep(f: Family, r: Record): Family {
    match r.body
    case SubagentSpawned(id, name, callId, hash, tools, model, depth, background) =>
      Family(
        f.children[id := ChildRun(id, name, callId, hash, depth, background, tools, model, r.seqNo,
                                  None, None, None, NO_USAGE, 0, None, 0, 0, None)],
        f.order + [id])
    case SubagentMessaged(id) =>
      if id !in f.children then f else
      f.(children := f.children[id := f.children[id].(messagesSent := f.children[id].messagesSent + 1)])
    case SubagentFinished(id, _, terminal, output, failure, usage, unreported, cost, unpriced) =>
      if id !in f.children then f else
      f.(children := f.children[id := f.children[id].(
                       terminal := Some(terminal), output := output, failure := failure,
                       usage := usage, unreportedUsageCalls := unreported, cost := cost,
                       unpricedModelCalls := unpriced, finishedSeq := Some(r.seqNo))])
    case _ => f
  }

  function BillStep(b: Bill, body: Body): Bill {
    match body
    case ModelCallFinished(_, _, usage, reported, cost, _, _) =>
      Charged(b, usage, reported, cost).(
        modelCalls := b.modelCalls + 1,
        lastPromptTokens := usage.input + usage.cacheRead + usage.cacheWrite)
    case ModelCallFailed(_, _, _, willRetry) =>
      b.(failedModelCalls := b.failedModelCalls + 1,
         transientRetriesUsed := b.transientRetriesUsed + (if willRetry then 1 else 0))
    case CompactionApplied(_, _, _, usage, reported, cost) =>
      Charged(b, usage, reported, cost).(compactionCalls := b.compactionCalls + 1)
    case _ => b
  }

  function Charged(b: Bill, usage: Usage, reported: bool, cost: Option<Cost>): Bill {
    var counted := b.(usage := b.usage.Plus(usage),
                      unreportedUsageCalls := b.unreportedUsageCalls + (if reported then 0 else 1));
    if cost.None? then counted.(unpricedModelCalls := b.unpricedModelCalls + 1)
    else counted.(
      providerReportedCosts := b.providerReportedCosts + (if cost.value.source == Provider then 1 else 0),
      cost := if b.cost.Some? && b.cost.value.currency == cost.value.currency
              then Some(b.cost.value.Plus(cost.value)) else cost)
  }

  function CompactionStep(c: Compaction, b: Body): Compaction {
    if b.CompactionApplied?
    then Compaction(if b.replacedToSeq > c.boundary then b.replacedToSeq else c.boundary,
                    c.summaries + [b.summary])
    else c
  }

  function ShownStep(s: Shown, b: Body): Shown {
    match b
    case TaskListUpdated(tasks) => s.(tasks := tasks)
    case ComponentShown(component) => s.(components := s.components + [component])
    case _ => s
  }

  function LocalsStep(l: Locals, r: Record): Locals {
    match r.body
    case ToolCallStarted(id, _, _, _, _, _, _, _) => l.(started := l.started + {id})
    case ToolCallFinished(id, _, _, _, _, _, _, _, _, _) => l.(settled := l.settled + {id})
    case QueueEnqueued(kind, id, payload) =>
      l.(enqueued := l.enqueued[id := Entry(id, kind, payload, r.seqNo)])
    case QueueCancelled(id) => l.(cancelled := l.cancelled + {id})
    case QueueConsumed(id) => l.(consumed := l.consumed + {id})
    case _ => l
  }

  function Apply(f: Fold, r: Record): Fold {
    var s := f.state;
    Fold(
      State(s.runId, s.scope, r.seqNo, LifeStep(s.life, r), TurnsStep(s.turns, r.body),
            CallsStep(s.calls, r), StreaksStep(s.failureStreaks, s.calls.open, r.body),
            RepeatsStep(s.repeatCounts, Counted(s.calls.open, r.body)),
            StepsStep(s.steps, r), QueuesStep(s.queues, f.locals, r), WaitingStep(s.waiting, r),
            ApprovalsStep(s.approvals, s.waiting.pause, r.body), FamilyStep(s.family, r), BillStep(s.bill, r.body),
            CompactionStep(s.compaction, r.body), ShownStep(s.shown, r.body)),
      LocalsStep(f.locals, r))
  }

  // ----------------------------------------------------------------- fold

  /** One pass of the loop body: envelope checks, then the record's own, then the update. */
  function Step(f: Fold, r: Record): Outcome<Fold> {
    if r.runId != f.state.runId then Refused(UnknownOperation, r.seqNo)
    else if r.scope.tenant != f.state.scope.tenant then Refused(UnknownOperation, r.seqNo)
    else if r.seqNo != f.state.headSeq + 1 then Refused(NonConsecutiveSeq, r.seqNo)
    else if f.state.life.settled && !r.body.RunSettled? then Refused(RecordAfterFinish, r.seqNo)
    else
      var objection := Check(f, r);
      if objection.Some? then Refused(objection.value, r.seqNo) else Accepted(Apply(f, r))
  }

  function Run(f: Fold, log: seq<Record>): Outcome<Fold> {
    if log == [] then Accepted(f)
    else
      var before := Run(f, Init(log));
      if before.Accepted? then Step(before.value, Last(log)) else before
  }

  predicate Accepts(f: Fold, log: seq<Record>) {
    Run(f, log).Accepted?
  }

  function After(f: Fold, log: seq<Record>): Fold
    requires Accepts(f, log)
  {
    Run(f, log).value
  }

  /** `reduce(records, run_id=runId, prior=prior)`. */
  function Reduce(records: seq<Record>, runId: Option<RunId>, prior: Option<State>): Outcome<State> {
    match prior
    case Some(s) =>
      if runId.Some? && runId.value != s.runId then Misused
      else Finished(Run(StartFrom(s), records))
    case None =>
      if records == [] then Misused
      else
        var id := if runId.Some? then runId.value else records[0].runId;
        Finished(Run(Fresh(id, records[0].scope), records))
  }

  function Finished(o: Outcome<Fold>): Outcome<State> {
    match o
    case Accepted(f) => Accepted(f.state)
    case Refused(reason, seqNo) => Refused(reason, seqNo)
    case Misused => Misused
  }

  // ------------------------------------------------------- using the fold

  /** An accepted log is accepted up to its last record, and that record is accepted there. */
  lemma RunSnoc(f: Fold, log: seq<Record>)
    requires Accepts(f, log) && |log| > 0
    ensures Accepts(f, Init(log))
    ensures Step(After(f, Init(log)), Last(log)) == Accepted(After(f, log))
    ensures After(f, log) == Apply(After(f, Init(log)), Last(log))
    ensures Check(After(f, Init(log)), Last(log)).None?
  {
  }

  /** Folding a concatenation is folding the second part from where the first ended. */
  lemma {:induction false} RunConcat(f: Fold, a: seq<Record>, b: seq<Record>)
    ensures Run(f, a + b) == if Accepts(f, a) then Run(After(f, a), b) else Run(f, a)
    decreases |b|
  {
    if b == [] {
      assert a + b == a;
    } else {
      assert Init(a + b) == a + Init(b) && Last(a + b) == Last(b);
      RunConcat(f, a, Init(b));
    }
  }

  /** Every prefix of an accepted log is accepted. */
  lemma {:induction false} AcceptsPrefix(f: Fold, log: seq<Record>, n: nat)
    requires Accepts(f, log) && n <= |log|
    ensures Accepts(f, log[..n])
    ensures Run(After(f, log[..n]), log[n..]) == Accepted(After(f, log))
  {
    assert log == log[..n] + log[n..];
    RunConcat(f, log[..n], log[n..]);
  }

  /** In an accepted fold the records are numbered consecutively and share one run and tenant. */
  lemma {:induction false} Numbered(f: Fold, log: seq<Record>)
    requires Accepts(f, log)
    ensures After(f, log).state.headSeq == f.state.headSeq + |log|
    ensures After(f, log).state.runId == f.state.runId
    ensures After(f, log).state.scope == f.state.scope
    ensures forall i :: 0 <= i < |log| ==>
              && log[i].seqNo == f.state.headSeq + i + 1
              && log[i].runId == f.state.runId
              && log[i].scope.tenant == f.state.scope.tenant
  {
    if log != [] {
      Numbered(f, Init(log));
      forall i | 0 <= i < |log|
        ensures log[i].seqNo == f.state.headSeq + i + 1
        ensures log[i].runId == f.state.runId && log[i].scope.tenant == f.state.scope.tenant
      {
        if i < |log| - 1 {
          assert log[i] == Init(log)[i];
        }
      }
    }
  }
}
