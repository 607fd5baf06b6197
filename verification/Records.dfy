/** The alphabet of a Run's log: the 23 record kinds, and the validators a record
    passes before it is ever appended. */
module Records {
  import opened Values
  import opened Metering

  type RunId = string
  type CallId = string
  type StepId = string

  datatype Scope = Scope(tenant: string, principal: string)

  datatype QueueKind = Steer | FollowUp | NextRun

  datatype TerminalState = Completed | Failed | Aborted | Abandoned | ForceSettled

  datatype SuspendReason = Approval | Question | External | Timer | Breakpoint | Children

  datatype ToolOutcome = Ok | Error | Aborted | Unknown

  datatype ToolFailure = ToolFailure(
    kind: string, message: string, traceback: Option<string>, tracebackIsForTheModel: bool)

  datatype Attachment = Attachment(name: string, handle: string, readable: bool)

  datatype PathElement = Name(name: string) | Index(index: int)

  datatype Body =
    | RunAdmitted(
        versionHash: string, input: Dict, idempotencyKey: Option<string>, deadlineAt: int,
        parentRunId: Option<RunId>, delegationDepth: nat, replaysRunId: Option<RunId>,
        replayFromStep: Option<string>, breakpoints: seq<string>, stepMode: bool,
        continuesRunId: Option<RunId>)
    | AttemptStarted(attemptNumber: nat)
    | RunSettled(terminal: TerminalState, output: Option<Dict>, failure: Option<ToolFailure>)
    | TurnStarted(turn: nat)
    | ModelCallStarted(turn: nat, model: string)
    | ModelCallFinished(
        turn: nat, model: string, usage: Usage, usageReported: bool, cost: Option<Cost>,
        text: string, toolCalls: seq<CallId>)
    | ModelCallFailed(turn: nat, model: string, error: ToolFailure, willRetry: bool)
    | ToolCallStarted(
        callId: CallId, tool: string, arguments: Dict, turn: nat, atStep: Option<StepId>,
        interruptible: bool, safeToRetry: bool, parentCallId: Option<CallId>)
    | ToolCallFinished(
        callId: CallId, outcome: ToolOutcome, result: Json, failure: Option<ToolFailure>,
        resultHandle: Option<string>, preview: Option<string>, resultBytes: nat,
        resultBlobKey: Option<string>, resultContentType: Option<string>,
        attachments: seq<Attachment>)
    | StepStarted(
        stepId: StepId, name: string, kind: string, attemptNumber: nat, input: Dict,
        path: seq<PathElement>, parentStepId: Option<StepId>, iteration: Option<nat>,
        replayedFrom: Option<RunId>)
    | StepCompleted(
        stepId: StepId, output: Option<Dict>, failure: Option<ToolFailure>,
        childRunId: Option<RunId>, skipped: bool, willRetry: bool, retryAt: Option<int>)
    | AbortRequested
    | QueueEnqueued(queue: QueueKind, entryId: string, payload: Dict)
    | QueueCancelled(entryId: string)
    | QueueConsumed(entryId: string)
    | Suspended(
        reason: SuspendReason, payloadSchema: Dict, expiresAt: int, atStep: Option<StepId>,
        stepName: Option<string>, event: Option<string>, wakeAt: Option<int>,
        pendingCallId: Option<CallId>, question: Option<string>)
    | Resumed(payload: Dict, approved: Option<bool>)
    | CompactionApplied(
        replacedFromSeq: nat, replacedToSeq: nat, summary: string, usage: Usage,
        usageReported: bool, cost: Option<Cost>)
    | TaskListUpdated(tasks: seq<Json>)
    | ComponentShown(component: Json)
    | SubagentSpawned(
        child: RunId, name: string, callId: CallId, childVersionHash: string,
        tools: seq<string>, model: string, depth: nat, background: bool)
    | SubagentMessaged(child: RunId)
    | SubagentFinished(
        child: RunId, name: string, terminal: TerminalState, output: Option<Dict>,
        failure: Option<ToolFailure>, usage: Usage, unreportedUsageCalls: nat,
        cost: Option<Cost>, unpricedModelCalls: nat)

  datatype Record = Record(
    runId: RunId, seqNo: nat, at: int, scope: Scope, attemptId: Option<string>, body: Body)

  /** The model validators of `records.py` and `usage.py`. */
  predicate ValidBody(b: Body) {
    && (b.ModelCallFinished? || b.CompactionApplied? || b.SubagentFinished? ==> b.usage.Valid())
    && (b.StepCompleted? ==>
          && (b.willRetry ==> b.failure.Some?)
          && (b.skipped ==> b.output.None? && b.failure.None?))
    && (b.ToolCallFinished? ==>
          && (b.resultBlobKey.None? <==> b.resultContentType.None?)
          && (b.resultBlobKey.Some? ==> b.result == Null))
  }

  predicate ValidLog(log: seq<Record>) {
    forall i :: 0 <= i < |log| ==> ValidBody(log[i].body)
  }
}
