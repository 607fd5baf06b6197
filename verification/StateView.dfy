/** `RunStateView` as the object it is: `reduce` assigns its fields as it walks the log.
    Every arm of the walk is proved against the step function of Reducer.dfy.

    Two of its collections hold, or are, objects that another state may share: the cells
    of `repeatCounts`, whose count is bumped in place, and the approval decisions. */
module StateView {
  import opened Values
  import opened Metering
  import opened Records
  import opened Reducer

  class RepeatTally {
    const resultDigest: Digest
    var count: nat

    constructor (digest: Digest, n: nat)
      ensures resultDigest == digest && count == n
    {
      resultDigest := digest;
      count := n;
    }
  }

  class ApprovalDecisions {
    var made: map<CallId, bool>

    constructor ()
      ensures made == map[]
    {
      made := map[];
    }
  }

  class RunStateView {
    const runId: RunId
    const scope: Scope
    var headSeq: nat
    var life: Life
    var turns: Turns
    var calls: Calls
    var failureStreaks: map<string, nat>
    var repeatCounts: map<Digest, RepeatTally>
    var steps: Steps
    var queues: Queues
    var waiting: Waiting
    const approvalDecisions: ApprovalDecisions
    var family: Family
    var bill: Bill
    var compaction: Compaction
    var shown: Shown

    /** No two calls count in the same cell. */
    ghost predicate Valid()
      reads this
    {
      forall k, k' :: k in repeatCounts && k' in repeatCounts && k != k' ==> repeatCounts[k] != repeatCounts[k']
    }

    ghost function Tallies(): map<Digest, Tally>
      reads `repeatCounts, repeatCounts.Values
    {
      map k | k in repeatCounts :: Tally(repeatCounts[k].resultDigest, repeatCounts[k].count)
    }

    /** The value of this object, in the terms of Reducer.dfy. */
    ghost function View(): State
      reads this, repeatCounts.Values, approvalDecisions
    {
      State(runId, scope, headSeq, life, turns, calls,
            failureStreaks, Tallies(), steps, queues, waiting, approvalDecisions.made,
            family, bill, compaction, shown)
    }

    /** The state a fold of a whole log starts on. */
    constructor (id: RunId, s: Scope)
      ensures Valid() && View() == FreshState(id, s)
      ensures fresh(approvalDecisions) && repeatCounts == map[]
    {
      runId, scope, headSeq := id, s, 0;
      life := Life(false, NOT_ADMITTED, 0, None, false, None, None, None);
      turns := Turns(0, false, false);
      calls := Calls(map[], [], map[], {}, {}, 0, 0);
      failureStreaks, repeatCounts := map[], map[];
      steps := Steps(map[], 0, map[]);
      queues := Queues([], [], [], None);
      waiting := Waiting(false, NO_PAUSE, false, 0, map[], map[], false);
      approvalDecisions := new ApprovalDecisions();
      family, bill := Family(map[], []), NO_BILL;
      compaction, shown := Compaction(0, []), Shown([], []);
    }

    /** `_continue_from`: every field copied, the tally cells and the approval decisions shared. */
    constructor ContinueFrom(prior: RunStateView)
      requires prior.Valid()
      ensures Valid() && View() == prior.View()
      ensures repeatCounts == prior.repeatCounts && approvalDecisions == prior.approvalDecisions
    {
      runId, scope, headSeq := prior.runId, prior.scope, prior.headSeq;
      life, turns, calls := prior.life, prior.turns, prior.calls;
      failureStreaks, repeatCounts := prior.failureStreaks, prior.repeatCounts;
      steps, queues := prior.steps, prior.queues;
      waiting, approvalDecisions := prior.waiting, prior.approvalDecisions;
      family, bill := prior.family, prior.bill;
      compaction, shown := prior.compaction, prior.shown;
    }

    // ---------------------------------------------- one arm a record kind

    /** `_fold_cost`: one call's cost joins the total, or is counted as unpriced. */
    method FoldCost(c: Option<Cost>) returns (objection: Option<CorruptionReason>)
      modifies `bill
      ensures objection == CheckCost(old(bill), c)
      ensures objection.None? ==>
                bill == old(bill).(
                  unpricedModelCalls := old(bill).unpricedModelCalls + (if c.None? then 1 else 0),
                  providerReportedCosts := old(bill).providerReportedCosts
                    + (if c.Some? && c.value.source == Provider then 1 else 0),
                  cost := if c.None? then old(bill).cost
                          else if old(bill).cost.None? then c
                          else Some(old(bill).cost.value.Plus(c.value)))
    {
      if c.None? {
        bill := bill.(unpricedModelCalls := bill.unpricedModelCalls + 1);
        return None;
      }
      if c.value.source == Provider {
        bill := bill.(providerReportedCosts := bill.providerReportedCosts + 1);
      }
      if bill.cost.None? {
        bill := bill.(cost := c);
      } else if bill.cost.value.currency != c.value.currency {
        return Some(InconsistentCost);
      } else {
        bill := bill.(cost := Some(bill.cost.value.Plus(c.value)));
      }
      return None;
    }

    method ChargeModelCall(b: Body) returns (objection: Option<CorruptionReason>)
      requires b.ModelCallFinished?
      modifies `bill
      ensures objection == CheckCost(old(bill), b.cost)
      ensures objection.None? ==> bill == BillStep(old(bill), b)
    {
      bill := bill.(modelCalls := bill.modelCalls + 1, usage := bill.usage.Plus(b.usage));
      if !b.usageReported {
        bill := bill.(unreportedUsageCalls := bill.unreportedUsageCalls + 1);
      }
      bill := bill.(lastPromptTokens := b.usage.input + b.usage.cacheRead + b.usage.cacheWrite);
      objection := FoldCost(b.cost);
    }

    method ChargeCompaction(b: Body) returns (objection: Option<CorruptionReason>)
      requires b.CompactionApplied?
      modifies `bill
      ensures objection == CheckCost(old(bill), b.cost)
      ensures objection.None? ==> bill == BillStep(old(bill), b)
    {
      bill := bill.(compactionCalls := bill.compactionCalls + 1, usage := bill.usage.Plus(b.usage));
      if !b.usageReported {
        bill := bill.(unreportedUsageCalls := bill.unreportedUsageCalls + 1);
      }
      objection := FoldCost(b.cost);
    }

    method DeliverAnswer(r: Record)
      requires r.body.Resumed?
      modifies `waiting, approvalDecisions
      ensures waiting == WaitingStep(old(waiting), r)
      ensures approvalDecisions.made == ApprovalsStep(old(approvalDecisions.made), old(waiting).pause, r.body)
    {
      var call := waiting.pause.pendingCall;
      if call.Some? && r.body.approved.Some? {
        approvalDecisions.made := approvalDecisions.made[call.value := r.body.approved.value];
      }
      AnswerCall(r.body.payload);
      AnswerStep(r.body.payload, r.body.approved, r.seqNo);
      Wake(r.at);
    }

    method Wake(at: int)
      modifies `waiting
      ensures waiting == Woken(old(waiting), at)
    {
      waiting := waiting.(suspendedSeconds := waiting.suspendedSeconds + Waited(waiting.pause, at));
      waiting := waiting.(suspended := false, resumedSinceAttempt := true, pause := NO_PAUSE);
    }

    method AnswerCall(payload: Dict)
      modifies `waiting
      ensures waiting == CallAnswered(old(waiting), payload)
    {
      var call := waiting.pause.pendingCall;
      if call.Some? && |payload| > 0 {
        waiting := waiting.(resumePayloads := waiting.resumePayloads[call.value := payload]);
      }
    }

    method AnswerStep(payload: Dict, approved: Option<bool>, seqNo: nat)
      modifies `waiting
      ensures waiting == StepAnswered(old(waiting), payload, approved, seqNo)
    {
      var p := waiting.pause;
      if p.stepId.Some? && p.reason.Some? {
        var answers := ResumesOf(waiting, p.stepId.value) + [StepResume(p.reason.value, payload, approved, seqNo)];
        waiting := waiting.(stepResumes := waiting.stepResumes[p.stepId.value := answers]);
        if p.reason.value == Breakpoint && STEP_MODE in payload && payload[STEP_MODE].Bool? {
          waiting := waiting.(stepMode := payload[STEP_MODE].b);
        }
      }
    }

    method FoldRunAdmitted(r: Record, ghost l: Locals) returns (objection: Option<CorruptionReason>)
      requires r.body.RunAdmitted? && headSeq == r.seqNo
      modifies `life, `waiting
      ensures objection == Check(Fold(old(View()), l), r)
      ensures objection.None? ==> View() == Apply(Fold(old(View()), l), r).state
    {
      if life.admitted {
        return Some(MultipleOpenOperations);
      }
      var b := r.body;
      life := life.(admitted := true,
                    admission := Admission(b.versionHash, Some(b.deadlineAt), b.parentRunId,
                                           b.delegationDepth, b.continuesRunId, b.idempotencyKey,
                                           b.input, b.replaysRunId, b.replayFromStep,
                                           b.breakpoints));
      waiting := waiting.(stepMode := b.stepMode);
      return None;
    }

    method FoldAttemptStarted(r: Record, ghost l: Locals) returns (objection: Option<CorruptionReason>)
      requires r.body.AttemptStarted? && headSeq == r.seqNo
      modifies `life, `waiting, `turns
      ensures objection == Check(Fold(old(View()), l), r)
      ensures objection.None? ==> View() == Apply(Fold(old(View()), l), r).state
    {
      if !life.admitted {
        return Some(UnknownOperation);
      }
      if r.body.attemptNumber != life.attemptCount + 1 {
        return Some(NonConsecutiveAttempt);
      }
      waiting := waiting.(resumedSinceAttempt := false);
      life := life.(attemptCount := r.body.attemptNumber, currentAttempt := r.attemptId);
      turns := turns.(turnOpen := false, callOpen := false);
      return None;
    }

    method FoldTurnStarted(r: Record, ghost l: Locals) returns (objection: Option<CorruptionReason>)
      requires r.body.TurnStarted? && headSeq == r.seqNo
      modifies `turns
      ensures objection == Check(Fold(old(View()), l), r)
      ensures objection.None? ==> View() == Apply(Fold(old(View()), l), r).state
    {
      if turns.turnOpen {
        return Some(MultipleOpenOperations);
      }
      if r.body.turn != turns.turn + 1 {
        return Some(NonConsecutiveAttempt);
      }
      turns := turns.(turn := r.body.turn, turnOpen := true);
      return None;
    }

    method FoldModelCallStarted(r: Record, ghost l: Locals) returns (objection: Option<CorruptionReason>)
      requires r.body.ModelCallStarted? && headSeq == r.seqNo
      modifies `turns
      ensures objection == Check(Fold(old(View()), l), r)
      ensures objection.None? ==> View() == Apply(Fold(old(View()), l), r).state
    {
      if !turns.turnOpen {
        return Some(UnknownOperation);
      }
      if r.body.turn != turns.turn {
        return Some(UnknownOperation);
      }
      if turns.callOpen {
        return Some(MultipleOpenOperations);
      }
      turns := turns.(callOpen := true);
      return None;
    }

    method FoldModelCallFinished(r: Record, ghost l: Locals) returns (objection: Option<CorruptionReason>)
      requires r.body.ModelCallFinished? && headSeq == r.seqNo
      modifies `bill, `turns
      ensures objection == Check(Fold(old(View()), l), r)
      ensures objection.None? ==> View() == Apply(Fold(old(View()), l), r).state
    {
      if !turns.callOpen {
        return Some(UnknownOperation);
      }
      if r.body.turn != turns.turn {
        return Some(UnknownOperation);
      }
      objection := ChargeModelCall(r.body);
      if objection.Some? {
        return;
      }
      turns := turns.(callOpen := false, turnOpen := false);
    }

    method FoldModelCallFailed(r: Record, ghost l: Locals) returns (objection: Option<CorruptionReason>)
      requires r.body.ModelCallFailed? && headSeq == r.seqNo
      modifies `bill, `turns
      ensures objection == Check(Fold(old(View()), l), r)
      ensures objection.None? ==> View() == Apply(Fold(old(View()), l), r).state
    {
      if !turns.callOpen || r.body.turn != turns.turn {
        return Some(UnknownOperation);
      }
      bill := bill.(failedModelCalls := bill.failedModelCalls + 1);
      if r.body.willRetry {
        bill := bill.(transientRetriesUsed := bill.transientRetriesUsed + 1);
      }
      turns := turns.(callOpen := false, turnOpen := false);
      return None;
    }

    method FoldCompactionApplied(r: Record, ghost l: Locals) returns (objection: Option<CorruptionReason>)
      requires r.body.CompactionApplied? && headSeq == r.seqNo
      modifies `compaction, `bill
      ensures objection == Check(Fold(old(View()), l), r)
      ensures objection.None? ==> View() == Apply(Fold(old(View()), l), r).state
    {
      if r.body.replacedToSeq < r.body.replacedFromSeq {
        return Some(InvalidCompactionReason);
      }
      if r.body.replacedToSeq >= r.seqNo {
        return Some(InvalidCompactionReason);
      }
      if r.body.replacedToSeq > compaction.boundary {
        compaction := compaction.(boundary := r.body.replacedToSeq);
      }
      compaction := compaction.(summaries := compaction.summaries + [r.body.summary]);
      objection := ChargeCompaction(r.body);
    }

    method FoldStepStarted(r: Record, ghost l: Locals) returns (objection: Option<CorruptionReason>)
      requires r.body.StepStarted? && headSeq == r.seqNo
      modifies `steps
      ensures objection == Check(Fold(old(View()), l), r)
      ensures objection.None? ==> View() == Apply(Fold(old(View()), l), r).state
    {
      var b := r.body;
      if b.stepId in steps.steps {
        var existing := steps.steps[b.stepId];
        if existing.completed && !existing.willRetry {
          return Some(InconsistentStep);
        }
        if b.attemptNumber != existing.attemptNumber + 1 {
          return Some(NonConsecutiveAttempt);
        }
      } else if b.attemptNumber != 1 {
        return Some(NonConsecutiveAttempt);
      }
      var began := StepRecord(b.stepId, b.name, b.kind, b.attemptNumber, b.input, false, None,
                              None, None, b.path, b.parentStepId, b.iteration, false, false, None,
                              r.at, None, r.seqNo, None, b.replayedFrom);
      steps := steps.(steps := steps.steps[b.stepId := began], starts := steps.starts + 1);
      return None;
    }

    method FoldStepCompleted(r: Record, ghost l: Locals) returns (objection: Option<CorruptionReason>)
      requires r.body.StepCompleted? && headSeq == r.seqNo
      modifies `steps
      ensures objection == Check(Fold(old(View()), l), r)
      ensures objection.None? ==> View() == Apply(Fold(old(View()), l), r).state
    {
      var b := r.body;
      if b.stepId !in steps.steps {
        return Some(InconsistentStep);
      }
      var began := steps.steps[b.stepId];
      if began.completed {
        return Some(InconsistentStep);
      }
      var ended := began.(completed := true, output := b.output, failure := b.failure,
                          childRunId := b.childRunId, skipped := b.skipped,
                          willRetry := b.willRetry, retryAt := b.retryAt,
                          completedAt := Some(r.at), completedSeq := Some(r.seqNo));
      steps := steps.(steps := steps.steps[b.stepId := ended]);
      if began.kind == SET_STATE && b.output.Some? && b.failure.None? && !b.skipped {
        steps := steps.(updates := steps.updates + b.output.value);
      }
      return None;
    }

    method FoldSuspended(r: Record, ghost l: Locals) returns (objection: Option<CorruptionReason>)
      requires r.body.Suspended? && headSeq == r.seqNo
      modifies `waiting, `turns
      ensures objection == Check(Fold(old(View()), l), r)
      ensures objection.None? ==> View() == Apply(Fold(old(View()), l), r).state
    {
      var b := r.body;
      if waiting.suspended {
        return Some(MultipleOpenOperations);
      }
      if b.reason == Approval && b.pendingCallId.Some? && b.pendingCallId.value !in calls.open {
        return Some(ToolCallMismatch);
      }
      waiting := waiting.(suspended := true,
                          pause := Pause(Some(b.reason), Some(b.expiresAt), Some(r.at),
                                         b.pendingCallId, b.question, b.atStep, b.stepName,
                                         b.payloadSchema, b.event, b.wakeAt));
      turns := turns.(turnOpen := false, callOpen := false);
      return None;
    }

    method FoldResumed(r: Record, ghost l: Locals) returns (objection: Option<CorruptionReason>)
      requires r.body.Resumed? && headSeq == r.seqNo
      modifies `waiting, approvalDecisions
      ensures objection == Check(Fold(old(View()), l), r)
      ensures objection.None? ==> View() == Apply(Fold(old(View()), l), r).state
      ensures objection.Some? ==> approvalDecisions.made == old(approvalDecisions.made)
    {
      if !waiting.suspended {
        return Some(UnknownOperation);
      }
      DeliverAnswer(r);
      return None;
    }

    method FoldSubagentSpawned(r: Record, ghost l: Locals) returns (objection: Option<CorruptionReason>)
      requires r.body.SubagentSpawned? && headSeq == r.seqNo
      modifies `family
      ensures objection == Check(Fold(old(View()), l), r)
      ensures objection.None? ==> View() == Apply(Fold(old(View()), l), r).state
    {
      var b := r.body;
      if b.child in family.children {
        return Some(MultipleOpenOperations);
      }
      if exists c :: c in family.children && family.children[c].name == b.name && family.children[c].Alive() {
        return Some(MultipleOpenOperations);
      }
      var spawned := ChildRun(b.child, b.name, b.callId, b.childVersionHash, b.depth, b.background,
                              b.tools, b.model, r.seqNo, None, None, None, NO_USAGE, 0, None, 0, 0,
                              None);
      family := Family(family.children[b.child := spawned], family.order + [b.child]);
      return None;
    }

    method FoldSubagentMessaged(r: Record, ghost l: Locals) returns (objection: Option<CorruptionReason>)
      requires r.body.SubagentMessaged? && headSeq == r.seqNo
      modifies `family
      ensures objection == Check(Fold(old(View()), l), r)
      ensures objection.None? ==> View() == Apply(Fold(old(View()), l), r).state
    {
      if r.body.child !in family.children {
        return Some(UnknownOperation);
      }
      var messaged := family.children[r.body.child];
      messaged := messaged.(messagesSent := messaged.messagesSent + 1);
      family := family.(children := family.children[r.body.child := messaged]);
      return None;
    }

    method FoldSubagentFinished(r: Record, ghost l: Locals) returns (objection: Option<CorruptionReason>)
      requires r.body.SubagentFinished? && headSeq == r.seqNo
      modifies `family
      ensures objection == Check(Fold(old(View()), l), r)
      ensures objection.None? ==> View() == Apply(Fold(old(View()), l), r).state
    {
      var b := r.body;
      if b.child !in family.children {
        return Some(UnknownOperation);
      }
      var finished := family.children[b.child];
      if !finished.Alive() {
        return Some(MultipleOpenOperations);
      }
      finished := finished.(terminal := Some(b.terminal), output := b.output, failure := b.failure,
                            usage := b.usage, unreportedUsageCalls := b.unreportedUsageCalls,
                            cost := b.cost, unpricedModelCalls := b.unpricedModelCalls,
                            finishedSeq := Some(r.seqNo));
      family := family.(children := family.children[b.child := finished]);
      return None;
    }

    method FoldRunSettled(r: Record, ghost l: Locals)
      requires r.body.RunSettled? && headSeq == r.seqNo
      modifies `life, `turns
      ensures View() == Apply(Fold(old(View()), l), r).state
    {
      life := life.(settled := true, terminal := Some(r.body.terminal), output := r.body.output,
                    failure := r.body.failure);
      turns := turns.(turnOpen := false, callOpen := false);
    }

    method FoldShown(r: Record, ghost l: Locals)
      requires (r.body.TaskListUpdated? || r.body.ComponentShown?) && headSeq == r.seqNo
      modifies `shown
      ensures View() == Apply(Fold(old(View()), l), r).state
    {
      if r.body.TaskListUpdated? {
        shown := shown.(tasks := r.body.tasks);
      } else {
        shown := shown.(components := shown.components + [r.body.component]);
      }
    }

    // ---------------------------------------------------------------- queues

    method FoldAbortRequested(r: Record, ghost l: Locals)
      requires r.body.AbortRequested? && headSeq == r.seqNo
      modifies `queues
      ensures View() == Apply(Fold(old(View()), l), r).state
    {
      if queues.abortSeq.None? {
        queues := queues.(abortSeq := Some(r.seqNo));
      }
    }

    method FoldQueueEnqueued(r: Record, l: Locals)
      returns (objection: Option<CorruptionReason>, l': Locals)
      requires r.body.QueueEnqueued? && headSeq == r.seqNo
      modifies `queues
      ensures objection == Check(Fold(old(View()), l), r)
      ensures objection.None? ==>
                View() == Apply(Fold(old(View()), l), r).state && l' == LocalsStep(l, r)
    {
      var b := r.body;
      l' := l;
      if b.queue != NextRun && queues.abortSeq.Some? && r.seqNo > queues.abortSeq.value {
        return Some(QueueAfterAbort), l';
      }
      if b.entryId in l.enqueued {
        return Some(ProvisionedEntryMismatch), l';
      }
      var entry := Entry(b.entryId, b.queue, b.payload, r.seqNo);
      l' := l.(enqueued := l.enqueued[b.entryId := entry]);
      queues := queues.With(b.queue, queues.Of(b.queue) + [entry]);
      return None, l';
    }

    method FoldQueueCancelled(r: Record, l: Locals)
      returns (objection: Option<CorruptionReason>, l': Locals)
      requires r.body.QueueCancelled? && headSeq == r.seqNo
      modifies `queues
      ensures objection == Check(Fold(old(View()), l), r)
      ensures objection.None? ==>
                View() == Apply(Fold(old(View()), l), r).state && l' == LocalsStep(l, r)
    {
      var id := r.body.entryId;
      l' := l;
      if || id !in l.enqueued || l.enqueued[id].enqueuedSeq >= r.seqNo
         || id in l.cancelled || id in l.consumed
      {
        return Some(InvalidQueueCancellation), l';
      }
      l' := l.(cancelled := l.cancelled + {id});
      RemoveFirst(l.enqueued[id].queue, id);
      return None, l';
    }

    method FoldQueueConsumed(r: Record, l: Locals)
      returns (objection: Option<CorruptionReason>, l': Locals)
      requires r.body.QueueConsumed? && headSeq == r.seqNo
      modifies `queues
      ensures objection == Check(Fold(old(View()), l), r)
      ensures objection.None? ==>
                View() == Apply(Fold(old(View()), l), r).state && l' == LocalsStep(l, r)
    {
      var id := r.body.entryId;
      l' := l;
      if id !in l.enqueued || id in l.cancelled {
        return Some(ProvisionedEntryMismatch), l';
      }
      if id in l.consumed {
        return Some(ProvisionedEntryMismatch), l';
      }
      l' := l.(consumed := l.consumed + {id});
      RemoveFirst(l.enqueued[id].queue, id);
      return None, l';
    }

    /** `_remove_entry`: deletes the first entry of that id from its queue, if one is there. */
    method RemoveFirst(kind: QueueKind, id: string)
      modifies `queues
      ensures queues == old(queues).With(kind, RemoveEntry(old(queues).Of(kind), id))
    {
      var queue := queues.Of(kind);
      for index := 0 to |queue|
        invariant queues == old(queues)
        invariant forall j :: 0 <= j < index ==> queue[j].entryId != id
      {
        if queue[index].entryId == id {
          RemoveEntryAt(queue, id, index);
          queues := queues.With(kind, queue[..index] + queue[index + 1..]);
          return;
        }
      }
      RemoveEntryAbsent(queue, id);
      assert queues == queues.With(kind, queue);
    }

    // ------------------------------------------------------------ tool calls

    method FoldToolCallStarted(r: Record, l: Locals)
      returns (objection: Option<CorruptionReason>, l': Locals)
      requires r.body.ToolCallStarted? && headSeq == r.seqNo
      modifies `calls
      ensures objection == Check(Fold(old(View()), l), r)
      ensures objection.None? ==>
                View() == Apply(Fold(old(View()), l), r).state && l' == LocalsStep(l, r)
    {
      var b := r.body;
      l' := l;
      if b.callId in l.started {
        return Some(DuplicateToolInvocation), l';
      }
      l' := l.(started := l.started + {b.callId});
      if b.turn != (if turns.turn < 1 then 1 else turns.turn) {
        return Some(UnknownOperation), l';
      }
      if BadHandle(calls, b.tool, b.arguments, b.parentCallId) {
        return Some(InvalidDeferredHandle), l';
      }
      OpenCall(r);
      return None, l';
    }

    /** A call is open from its start on, and a program's own calls are counted here. */
    method OpenCall(r: Record)
      requires r.body.ToolCallStarted?
      modifies `calls
      ensures calls == CallsStep(old(calls), r)
    {
      var b := r.body;
      if b.tool == RUN_CODE {
        calls := calls.(programs := calls.programs + {b.callId});
      } else if b.parentCallId.Some? && b.parentCallId.value in calls.programs {
        calls := calls.(programCalls := calls.programCalls + 1,
                        programOpen := calls.programOpen + {b.callId});
      }
      calls := calls.(open := calls.open[b.callId := OpenToolCall(
                                b.callId, b.tool, b.arguments, b.turn, b.atStep, b.interruptible,
                                b.safeToRetry, r.at)]);
    }

    method FoldToolCallFinished(r: Record, l: Locals)
      returns (objection: Option<CorruptionReason>, l': Locals)
      requires r.body.ToolCallFinished? && headSeq == r.seqNo && Valid()
      modifies `calls, `failureStreaks, `repeatCounts, repeatCounts.Values
      ensures Valid()
      ensures objection == Check(Fold(old(View()), l), r)
      ensures objection.None? ==>
                View() == Apply(Fold(old(View()), l), r).state && l' == LocalsStep(l, r)
      ensures CellsCounted(old(repeatCounts), old(Tallies()), Counted(old(calls.open), r.body))
    {
      var b := r.body;
      l' := l;
      if b.callId !in calls.open {
        return Some(ToolCallMismatch), l';
      }
      l' := l.(settled := l.settled + {b.callId});
      FinishCall(r);
      return None, l';
    }

    method FinishCall(r: Record)
      requires r.body.ToolCallFinished? && r.body.callId in calls.open && Valid()
      modifies `calls, `failureStreaks, `repeatCounts, repeatCounts.Values
      ensures Valid()
      ensures calls == CallsStep(old(calls), r)
      ensures failureStreaks == StreaksStep(old(failureStreaks), old(calls.open), r.body)
      ensures Tallies() == RepeatsStep(old(Tallies()), Counted(old(calls.open), r.body))
      ensures CellsCounted(old(repeatCounts), old(Tallies()), Counted(old(calls.open), r.body))
    {
      var call := calls.open[r.body.callId];
      SettleCall(r);
      CountOutcome(call, r.body);
    }

    method CountOutcome(call: OpenToolCall, b: Body)
      requires b.ToolCallFinished? && Valid()
      modifies `failureStreaks, `repeatCounts, repeatCounts.Values
      ensures Valid()
      ensures failureStreaks == StreakStep(old(failureStreaks), call.tool, b.outcome)
      ensures Tallies() == RepeatsStep(old(Tallies()), CountedFor(call, b))
      ensures CellsCounted(old(repeatCounts), old(Tallies()), CountedFor(call, b))
    {
      UpdateFailureStreak(call.tool, b.outcome);
      if b.outcome == ToolOutcome.Ok {
        UpdateRepeatCount(call.tool, call.arguments, b);
      }
    }

    /** The book-keeping of a settled call: no longer open, its result appended, its handles issued. */
    method SettleCall(r: Record)
      requires r.body.ToolCallFinished? && r.body.callId in calls.open
      modifies `calls
      ensures calls == CallsStep(old(calls), r)
    {
      var b := r.body;
      var call := calls.open[b.callId];
      calls := calls.(open := calls.open - {b.callId});
      var fromProgram := b.callId in calls.programOpen;
      calls := calls.(programOpen := calls.programOpen - {b.callId});
      if fromProgram && b.resultHandle.Some? {
        calls := calls.(preservedBytes := calls.preservedBytes + b.resultBytes);
      }
      var handles := calls.handles;
      if b.resultHandle.Some? {
        handles := handles[b.resultHandle.value := b.callId];
      }
      ghost var issued := handles;
      for i := 0 to |b.attachments|
        invariant handles == WithAttachments(issued, b.attachments[..i], b.callId)
      {
        assert Init(b.attachments[..i + 1]) == b.attachments[..i];
        if b.attachments[i].readable {
          handles := handles[b.attachments[i].handle := b.callId];
        }
      }
      assert b.attachments[..|b.attachments|] == b.attachments;
      calls := calls.(handles := handles,
                      results := calls.results + [ToolResult(
                        b.callId, call.tool, b.outcome, b.result, b.failure, b.resultHandle,
                        b.preview, call.turn, b.resultBlobKey, b.resultContentType,
                        b.attachments)]);
    }

    /** `_update_failure_streak` */
    method UpdateFailureStreak(tool: string, outcome: ToolOutcome)
      modifies `failureStreaks
      ensures failureStreaks == StreakStep(old(failureStreaks), tool, outcome)
    {
      match outcome
      case Ok => failureStreaks := failureStreaks - {tool};
      case Error | Unknown =>
        failureStreaks := failureStreaks[tool := (if tool in failureStreaks then failureStreaks[tool] else 0) + 1];
      case Aborted =>
    }

    /** `_update_repeat_count`: bumps a cell where it stands, or puts a new one in its place. */
    method UpdateRepeatCount(tool: string, arguments: Dict, b: Body)
      requires b.ToolCallFinished? && Valid()
      modifies `repeatCounts, repeatCounts.Values
      ensures Valid()
      ensures Tallies() == RepeatStep(old(Tallies()), CallDigest(tool, arguments),
                                      AnswerDigest(tool, arguments, Answer(b)))
      ensures CellsCounted(old(repeatCounts), old(Tallies()),
                           Some((CallDigest(tool, arguments), AnswerDigest(tool, arguments, Answer(b)))))
    {
      var answer := if b.resultBlobKey.None? then b.result else Text(b.resultBlobKey.value);
      var callKey := CallDigest(tool, arguments);
      var answerKey := AnswerDigest(tool, arguments, answer);
      if callKey !in repeatCounts || repeatCounts[callKey].resultDigest != answerKey {
        PutCell(callKey, answerKey);
      } else {
        BumpCell(callKey);
      }
    }

    /** A new cell for a call, in place of any it had. */
    method PutCell(callKey: Digest, answerKey: Digest)
      requires Valid() && (callKey in repeatCounts ==> repeatCounts[callKey].resultDigest != answerKey)
      modifies `repeatCounts
      ensures Valid()
      ensures Tallies() == RepeatStep(old(Tallies()), callKey, answerKey)
      ensures CellsCounted(old(repeatCounts), old(Tallies()), Some((callKey, answerKey)))
    {
      var cell := new RepeatTally(answerKey, 1);
      repeatCounts := repeatCounts[callKey := cell];
    }

    /** One more of the same answer, counted in the cell that stands. */
    method BumpCell(callKey: Digest)
      requires Valid() && callKey in repeatCounts
      modifies repeatCounts.Values
      ensures Valid() && repeatCounts == old(repeatCounts)
      ensures Tallies() == RepeatStep(old(Tallies()), callKey, old(repeatCounts[callKey].resultDigest))
      ensures CellsCounted(old(repeatCounts), old(Tallies()), Some((callKey, old(repeatCounts[callKey].resultDigest))))
    {
      var tally := repeatCounts[callKey];
      tally.count := tally.count + 1;
    }

    /** What counting one answer does to the cells that were there: the counted call's cell is
        bumped where it stands, or left behind for a new one; no other cell changes or moves. */
    twostate predicate CellsCounted(
      cells: map<Digest, RepeatTally>, before: map<Digest, Tally>, counted: Option<(Digest, Digest)>)
      reads this, cells.Values
    {
      && (forall k :: k in cells ==> k in before && k in repeatCounts)
      && (forall k :: k in repeatCounts && k !in cells ==> fresh(repeatCounts[k]))
      && forall k :: k in cells ==>
           if counted.Some? && k == counted.value.0 then
             if before[k].resultDigest == counted.value.1
             then repeatCounts[k] == cells[k] && cells[k].count == before[k].count + 1
             else fresh(repeatCounts[k]) && cells[k].count == before[k].count
           else repeatCounts[k] == cells[k] && cells[k].count == before[k].count
    }


    // ----------------------------------------------------- the match itself

    method FoldLifecycle(r: Record, l: Locals) returns (objection: Option<CorruptionReason>, l': Locals)
      requires OfLifecycle(r.body) && headSeq == r.seqNo
      modifies this
      ensures repeatCounts == old(repeatCounts)
      ensures objection == Check(Fold(old(View()), l), r)
      ensures objection.None? ==> Fold(View(), l') == Apply(Fold(old(View()), l), r)
    {
      objection, l' := None, l;
      if r.body.RunAdmitted? {
        objection := FoldRunAdmitted(r, l);
      } else if r.body.AttemptStarted? {
        objection := FoldAttemptStarted(r, l);
      } else if r.body.Suspended? {
        objection := FoldSuspended(r, l);
      } else if r.body.AbortRequested? {
        FoldAbortRequested(r, l);
      } else {
        FoldRunSettled(r, l);
      }
    }

    method FoldModelCalls(r: Record, l: Locals) returns (objection: Option<CorruptionReason>, l': Locals)
      requires OfModelCalls(r.body) && headSeq == r.seqNo
      modifies this
      ensures repeatCounts == old(repeatCounts)
      ensures objection == Check(Fold(old(View()), l), r)
      ensures objection.None? ==> Fold(View(), l') == Apply(Fold(old(View()), l), r)
    {
      objection, l' := None, l;
      if r.body.TurnStarted? {
        objection := FoldTurnStarted(r, l);
      } else if r.body.ModelCallStarted? {
        objection := FoldModelCallStarted(r, l);
      } else if r.body.ModelCallFinished? {
        objection := FoldModelCallFinished(r, l);
      } else if r.body.ModelCallFailed? {
        objection := FoldModelCallFailed(r, l);
      } else {
        objection := FoldCompactionApplied(r, l);
      }
    }

    method FoldQueues(r: Record, l: Locals) returns (objection: Option<CorruptionReason>, l': Locals)
      requires OfQueues(r.body) && headSeq == r.seqNo
      modifies this
      ensures repeatCounts == old(repeatCounts)
      ensures objection == Check(Fold(old(View()), l), r)
      ensures objection.None? ==> Fold(View(), l') == Apply(Fold(old(View()), l), r)
    {
      objection, l' := None, l;
      if r.body.QueueEnqueued? {
        objection, l' := FoldQueueEnqueued(r, l);
      } else if r.body.QueueCancelled? {
        objection, l' := FoldQueueCancelled(r, l);
      } else {
        objection, l' := FoldQueueConsumed(r, l);
      }
    }

    method FoldWork(r: Record, l: Locals) returns (objection: Option<CorruptionReason>, l': Locals)
      requires OfWork(r.body) && headSeq == r.seqNo
      modifies this
      ensures repeatCounts == old(repeatCounts)
      ensures objection == Check(Fold(old(View()), l), r)
      ensures objection.None? ==> Fold(View(), l') == Apply(Fold(old(View()), l), r)
    {
      objection, l' := None, l;
      if r.body.StepStarted? {
        objection := FoldStepStarted(r, l);
      } else if r.body.StepCompleted? {
        objection := FoldStepCompleted(r, l);
      } else if r.body.SubagentSpawned? {
        objection := FoldSubagentSpawned(r, l);
      } else if r.body.SubagentMessaged? {
        objection := FoldSubagentMessaged(r, l);
      } else {
        objection := FoldSubagentFinished(r, l);
      }
    }

    /** The match of the loop body: the record's own checks and its update. */
    method FoldRecord(r: Record, l: Locals) returns (objection: Option<CorruptionReason>, l': Locals)
      requires Valid() && headSeq == r.seqNo
      modifies this, repeatCounts.Values, approvalDecisions
      ensures Valid()
      ensures objection == Check(Fold(old(View()), l), r)
      ensures objection.None? ==> Fold(View(), l') == Apply(Fold(old(View()), l), r)
      ensures objection.Some? ==> approvalDecisions.made == old(approvalDecisions.made)
      ensures CellsCounted(old(repeatCounts), old(Tallies()), Counted(old(calls.open), r.body))
    {
      objection, l' := None, l;
      if r.body.ToolCallFinished? {
        objection, l' := FoldToolCallFinished(r, l);
      } else if r.body.Resumed? {
        objection := FoldResumed(r, l);
      } else if r.body.ToolCallStarted? {
        objection, l' := FoldToolCallStarted(r, l);
      } else if r.body.TaskListUpdated? || r.body.ComponentShown? {
        FoldShown(r, l);
      } else if OfLifecycle(r.body) {
        objection, l' := FoldLifecycle(r, l);
      } else if OfModelCalls(r.body) {
        objection, l' := FoldModelCalls(r, l);
      } else if OfQueues(r.body) {
        objection, l' := FoldQueues(r, l);
      } else {
        objection, l' := FoldWork(r, l);
      }
    }

    /** The loop body of `reduce`. `counted` is what the record added to the repeat tallies. */
    method FoldNext(before: Locals, r: Record, expectedSeq: nat)
      returns (objection: Option<CorruptionReason>, locals: Locals, ghost counted: Option<(Digest, Digest)>)
      requires Valid() && expectedSeq == headSeq + 1
      modifies this, repeatCounts.Values, approvalDecisions
      ensures Valid()
      ensures objection.Some? ==> Step(Fold(old(View()), before), r) == Refused(objection.value, r.seqNo)
      ensures objection.None? ==> Step(Fold(old(View()), before), r) == Accepted(Fold(View(), locals))
      ensures objection.Some? ==> counted.None?
      ensures objection.None? ==> counted == Counted(old(calls.open), r.body)
      ensures CellsCounted(old(repeatCounts), old(Tallies()), counted)
      ensures objection.Some? ==> approvalDecisions.made == old(approvalDecisions.made)
    {
      locals, counted := before, None;
      objection := Envelope(r, expectedSeq, before);
      if objection.Some? {
        return;
      }
      headSeq := r.seqNo;
      HeadSeqUnread(old(View()), before, r, r.seqNo);
      assert View() == old(View()).(headSeq := r.seqNo);
      objection, locals := FoldRecord(r, before);
      counted := Counted(old(calls.open), r.body);
    }

    /** The loop body again, seen from the cells the fold started with. */
    method FoldMoved(before: Locals, r: Record, expectedSeq: nat,
                     ghost cells: map<Digest, RepeatTally>, ghost sh: Shadow)
      returns (objection: Option<CorruptionReason>, locals: Locals, ghost counted: Option<(Digest, Digest)>)
      requires Valid() && expectedSeq == headSeq + 1
      requires CellsShadowed(cells, repeatCounts, sh)
      modifies this, repeatCounts.Values, approvalDecisions
      ensures Valid()
      ensures objection.Some? ==> Step(Fold(old(View()), before), r) == Refused(objection.value, r.seqNo)
      ensures objection.None? ==> Step(Fold(old(View()), before), r) == Accepted(Fold(View(), locals))
      ensures objection.Some? ==> counted.None?
      ensures objection.None? ==> counted == Counted(old(calls.open), r.body)
      ensures forall k :: k in cells ==>
                && k in repeatCounts
                && CellMoved(cells[k], old(repeatCounts)[k], repeatCounts[k], sh.tallies[k], cells[k].count,
                             AnswerFor(k, counted))
      ensures forall k :: k in repeatCounts ==>
                fresh(repeatCounts[k]) || (k in old(repeatCounts) && repeatCounts[k] == old(repeatCounts)[k])
      ensures objection.Some? ==> approvalDecisions.made == old(approvalDecisions.made)
    {
      ghost var prev := repeatCounts;
      objection, locals, counted := FoldNext(before, r, expectedSeq);
      forall k | k in cells
        ensures k in repeatCounts
        ensures CellMoved(cells[k], prev[k], repeatCounts[k], sh.tallies[k], cells[k].count, AnswerFor(k, counted))
      {
        if prev[k] != cells[k] {
          assert cells[k] !in prev.Values;
        }
      }
    }

    /** The loop body again, with the shadow of the cells the fold started with. */
    method FoldShadowed(before: Locals, r: Record, expectedSeq: nat,
                        ghost cells: map<Digest, RepeatTally>, ghost sh: Shadow)
      returns (objection: Option<CorruptionReason>, locals: Locals)
      requires Valid() && expectedSeq == headSeq + 1
      requires CellsShadowed(cells, repeatCounts, sh)
      modifies this, repeatCounts.Values, approvalDecisions
      ensures Valid()
      ensures objection.Some? ==> Step(Fold(old(View()), before), r) == Refused(objection.value, r.seqNo)
      ensures objection.None? ==> Step(Fold(old(View()), before), r) == Accepted(Fold(View(), locals))
      ensures objection.Some? ==> CellsShadowed(cells, repeatCounts, sh)
      ensures objection.None? ==>
                CellsShadowed(cells, repeatCounts, ShadowStep(sh, Counted(old(calls.open), r.body)))
      ensures forall k :: k in repeatCounts ==>
                fresh(repeatCounts[k]) || (k in old(repeatCounts) && repeatCounts[k] == old(repeatCounts)[k])
      ensures objection.Some? ==> approvalDecisions.made == old(approvalDecisions.made)
    {
      ghost var prev, counted := repeatCounts, None;
      objection, locals, counted := FoldMoved(before, r, expectedSeq, cells, sh);
      ShadowMoves(cells, prev, repeatCounts, map k | k in cells :: cells[k].count, sh, counted);
    }

    /** The loop body again, at index `i` of the log folded from `start`. */
    method FoldAt(ghost start: Fold, records: seq<Record>, i: nat, before: Locals, expectedSeq: nat,
                  ghost cells: map<Digest, RepeatTally>)
      returns (objection: Option<CorruptionReason>, locals: Locals)
      requires Valid() && expectedSeq == headSeq + 1 && i < |records|
      requires Run(start, records[..i]) == Accepted(Fold(View(), before))
      requires CellsShadowed(cells, repeatCounts, ShadowAfter(start, records[..i]))
      requires approvalDecisions.made == ApprovalsAfter(start, records[..i])
      modifies this, repeatCounts.Values, approvalDecisions
      ensures Valid()
      ensures objection.Some? ==> Run(start, records[..i + 1]) == Refused(objection.value, records[i].seqNo)
      ensures objection.None? ==> Run(start, records[..i + 1]) == Accepted(Fold(View(), locals))
      ensures objection.None? ==> headSeq == records[i].seqNo
      ensures CellsShadowed(cells, repeatCounts, ShadowAfter(start, records[..i + 1]))
      ensures forall k :: k in repeatCounts ==>
                fresh(repeatCounts[k]) || (k in old(repeatCounts) && repeatCounts[k] == old(repeatCounts)[k])
      ensures approvalDecisions.made == ApprovalsAfter(start, records[..i + 1])
    {
      LoopNext(start, records, i);
      objection, locals := FoldShadowed(before, records[i], expectedSeq, cells, ShadowAfter(start, records[..i]));
    }

    /** The loop of `reduce`, over the state it was handed. */
    method FoldAll(before: Locals, records: seq<Record>)
      returns (objection: Option<(CorruptionReason, nat)>)
      requires Valid()
      modifies this, repeatCounts.Values, approvalDecisions
      ensures Valid()
      ensures match Run(Fold(old(View()), before), records)
              case Accepted(f) => objection.None? && f.state == View()
              case Refused(reason, seqNo) => objection == Some((reason, seqNo))
              case Misused => false
      ensures CellsShadowed(old(repeatCounts), repeatCounts,
                            ShadowAfter(Fold(old(View()), before), records))
      ensures forall k :: k in repeatCounts ==>
                fresh(repeatCounts[k]) || repeatCounts[k] in old(repeatCounts.Values)
      ensures approvalDecisions.made == ApprovalsAfter(Fold(old(View()), before), records)
    {
      var locals := before;
      var expectedSeq := headSeq + 1;
      ghost var start := Fold(View(), before);
      ghost var cells := repeatCounts;
      for i := 0 to |records|
        invariant Valid() && expectedSeq == headSeq + 1
        invariant Run(start, records[..i]) == Accepted(Fold(View(), locals))
        invariant CellsShadowed(cells, repeatCounts, ShadowAfter(start, records[..i]))
        invariant forall k :: k in repeatCounts ==>
                    fresh(repeatCounts[k]) || repeatCounts[k] in cells.Values
        invariant approvalDecisions.made == ApprovalsAfter(start, records[..i])
      {
        var refusal;
        refusal, locals := FoldAt(start, records, i, locals, expectedSeq, cells);
        expectedSeq := records[i].seqNo + 1;
        if refusal.Some? {
          Stopped(start, records, i + 1);
          return Some((refusal.value, records[i].seqNo));
        }
      }
      assert records[..|records|] == records;
      return None;
    }

    /** `_check_belongs`, `_check_sequence`, and nothing after a settlement but another one. */
    method Envelope(r: Record, expectedSeq: nat, ghost l: Locals)
      returns (objection: Option<CorruptionReason>)
      requires expectedSeq == headSeq + 1
      ensures objection.Some? ==> Step(Fold(View(), l), r) == Refused(objection.value, r.seqNo)
      ensures objection.None? ==>
                var f := Fold(View(), l);
                Step(f, r) == if Check(f, r).Some? then Refused(Check(f, r).value, r.seqNo)
                              else Accepted(Apply(f, r))
    {
      if r.runId != runId {
        return Some(UnknownOperation);
      }
      if r.scope.tenant != scope.tenant {
        return Some(UnknownOperation);
      }
      if r.seqNo != expectedSeq {
        return Some(NonConsecutiveSeq);
      }
      if life.settled && !r.body.RunSettled? {
        return Some(RecordAfterFinish);
      }
      return None;
    }
  }

  predicate OfLifecycle(b: Body) {
    b.RunAdmitted? || b.AttemptStarted? || b.Suspended? || b.AbortRequested? || b.RunSettled?
  }

  predicate OfModelCalls(b: Body) {
    b.TurnStarted? || b.ModelCallStarted? || b.ModelCallFinished? || b.ModelCallFailed? || b.CompactionApplied?
  }

  predicate OfQueues(b: Body) {
    b.QueueEnqueued? || b.QueueCancelled? || b.QueueConsumed?
  }

  predicate OfWork(b: Body) {
    b.StepStarted? || b.StepCompleted? || b.SubagentSpawned? || b.SubagentMessaged? || b.SubagentFinished?
  }

  lemma {:induction false} RemoveEntryAt(q: seq<Entry>, id: string, i: nat)
    requires i < |q| && q[i].entryId == id
    requires forall j :: 0 <= j < i ==> q[j].entryId != id
    ensures RemoveEntry(q, id) == q[..i] + q[i + 1..]
  {
    if i > 0 {
      RemoveEntryAt(q[1..], id, i - 1);
    }
  }

  lemma {:induction false} RemoveEntryAbsent(q: seq<Entry>, id: string)
    requires forall j :: 0 <= j < |q| ==> q[j].entryId != id
    ensures RemoveEntry(q, id) == q
  {
    if q != [] {
      RemoveEntryAbsent(q[1..], id);
    }
  }

  // ---------------------------------------------------------------- the loop

  /** What a prior state's own tally cells hold while a continuation counts in them:
      `shared` are the calls whose cell is still the one the continuation bumps. */
  datatype Shadow = Shadow(tallies: map<Digest, Tally>, shared: set<Digest>)

  function ShadowStep(sh: Shadow, counted: Option<(Digest, Digest)>): Shadow {
    if counted.None? || counted.value.0 !in sh.shared || counted.value.0 !in sh.tallies then sh
    else
      var (key, answer) := counted.value;
      if sh.tallies[key].resultDigest == answer
      then sh.(tallies := sh.tallies[key := Tally(answer, sh.tallies[key].count + 1)])
      else sh.(shared := sh.shared - {key})
  }

  /** The shadow of `f` after as much of `log` as is accepted. */
  function ShadowAfter(f: Fold, log: seq<Record>): Shadow {
    if log == [] then Shadow(f.state.repeatCounts, f.state.repeatCounts.Keys)
    else if Accepts(f, log)
    then ShadowStep(ShadowAfter(f, Init(log)), Counted(After(f, Init(log)).state.calls.open, Last(log).body))
    else ShadowAfter(f, Init(log))
  }

  /** The approval decisions after as much of `log` as is accepted. */
  function ApprovalsAfter(f: Fold, log: seq<Record>): map<CallId, bool> {
    if log == [] then f.state.approvals
    else if Accepts(f, log) then After(f, log).state.approvals
    else ApprovalsAfter(f, Init(log))
  }

  /** How the cells a fold started with stand now: which it still counts in, and what they hold. */
  ghost predicate CellsShadowed(cells: map<Digest, RepeatTally>, now: map<Digest, RepeatTally>, sh: Shadow)
    reads cells.Values
  {
    && sh.tallies.Keys == cells.Keys <= now.Keys
    && (forall k :: k in cells ==> sh.tallies[k] == Tally(cells[k].resultDigest, cells[k].count))
    && (forall k :: k in cells ==> (k in sh.shared <==> now[k] == cells[k]))
    && (forall k, k' :: k in now && k' in cells && now[k] == cells[k'] ==> k == k')
  }

  /** A cell of the starting map after one counted answer: bumped or left if it is still
      shared, and as it was if it is not. */
  ghost predicate CellMoved(cell: RepeatTally, prev: RepeatTally, now: RepeatTally, was: Tally, count: nat,
                            answer: Option<Digest>)
  {
    if answer.Some? && prev == cell then
      if was.resultDigest == answer.value
      then now == cell && count == was.count + 1
      else now != cell && count == was.count
    else
      (now == cell <==> prev == cell) && count == was.count
  }

  function AnswerFor(k: Digest, counted: Option<(Digest, Digest)>): Option<Digest> {
    if counted.Some? && counted.value.0 == k then Some(counted.value.1) else None
  }

  lemma ShadowMoves(cells: map<Digest, RepeatTally>, prev: map<Digest, RepeatTally>,
                    now: map<Digest, RepeatTally>, counts: map<Digest, nat>, sh: Shadow,
                    counted: Option<(Digest, Digest)>)
    requires sh.tallies.Keys == cells.Keys == counts.Keys
    requires cells.Keys <= prev.Keys && cells.Keys <= now.Keys
    requires forall k :: k in cells ==> sh.tallies[k].resultDigest == cells[k].resultDigest
    requires forall k :: k in cells ==> (k in sh.shared <==> prev[k] == cells[k])
    requires forall k :: k in cells ==>
               CellMoved(cells[k], prev[k], now[k], sh.tallies[k], counts[k], AnswerFor(k, counted))
    ensures ShadowStep(sh, counted).tallies.Keys == cells.Keys
    ensures forall k :: k in cells ==>
              && ShadowStep(sh, counted).tallies[k] == Tally(cells[k].resultDigest, counts[k])
              && (k in ShadowStep(sh, counted).shared <==> now[k] == cells[k])
  {
  }

  lemma HeadSeqUnread(s: State, l: Locals, r: Record, n: nat)
    ensures Check(Fold(s.(headSeq := n), l), r) == Check(Fold(s, l), r)
    ensures Apply(Fold(s.(headSeq := n), l), r) == Apply(Fold(s, l), r)
  {
  }

  /** One more record of the loop. */
  lemma LoopNext(f: Fold, log: seq<Record>, i: nat)
    requires i < |log| && Accepts(f, log[..i])
    ensures Run(f, log[..i + 1]) == Step(After(f, log[..i]), log[i])
    ensures ShadowAfter(f, log[..i + 1])
            == if Accepts(f, log[..i + 1])
               then ShadowStep(ShadowAfter(f, log[..i]), Counted(After(f, log[..i]).state.calls.open, log[i].body))
               else ShadowAfter(f, log[..i])
    ensures ApprovalsAfter(f, log[..i + 1])
            == if Accepts(f, log[..i + 1]) then After(f, log[..i + 1]).state.approvals else ApprovalsAfter(f, log[..i])
  {
    assert Init(log[..i + 1]) == log[..i] && Last(log[..i + 1]) == log[i];
  }

  /** Once a record is refused nothing after it changes the outcome or the shared cells. */
  lemma {:induction false} Stopped(f: Fold, log: seq<Record>, n: nat)
    requires n <= |log| && !Accepts(f, log[..n])
    ensures Run(f, log) == Run(f, log[..n])
    ensures ShadowAfter(f, log) == ShadowAfter(f, log[..n])
    ensures ApprovalsAfter(f, log) == ApprovalsAfter(f, log[..n])
    decreases |log|
  {
    if n == |log| {
      assert log[..n] == log;
    } else {
      assert Init(log)[..n] == log[..n];
      Stopped(f, Init(log), n);
    }
  }
}
