/** Which logs the fold accepts, and why it refuses the others, said from the log alone. */
module Admissible {
  import opened Values
  import opened Metering
  import opened Records
  import opened Reducer
  import opened LogTerms
  import opened History

  /** Why a record of the Run cannot follow a log, in its place and before any ending. */
  function ObjectionTo(log: seq<Record>, r: Record): Option<CorruptionReason> {
    var b := r.body;
    match b
    case RunAdmitted(_, _, _, _, _, _, _, _, _, _, _) =>
      if Latest(log, Admissions) >= 0 then Some(MultipleOpenOperations) else None
    case AttemptStarted(n) =>
      if Latest(log, Admissions) < 0 then Some(UnknownOperation)
      else if n != Count(log, Attempts) + 1 then Some(NonConsecutiveAttempt) else None
    case TurnStarted(turn) =>
      if TurnOpen(log) then Some(MultipleOpenOperations)
      else if turn != Count(log, TurnStarts) + 1 then Some(NonConsecutiveAttempt) else None
    case ModelCallStarted(turn, _) =>
      if !TurnOpen(log) || turn != Count(log, TurnStarts) then Some(UnknownOperation)
      else if ModelCallOpen(log) then Some(MultipleOpenOperations) else None
    case ModelCallFinished(turn, _, _, _, cost, _, _) =>
      if !ModelCallOpen(log) || turn != Count(log, TurnStarts) then Some(UnknownOperation)
      else if OtherCurrency(log, cost) then Some(InconsistentCost) else None
    case ModelCallFailed(turn, _, _, _) =>
      if !ModelCallOpen(log) || turn != Count(log, TurnStarts) then Some(UnknownOperation) else None
    case ToolCallStarted(id, tool, arguments, turn, _, _, _, parent) =>
      if Latest(log, CallStarts(id)) >= 0 then Some(DuplicateToolInvocation)
      else if turn != Max(Count(log, TurnStarts), 1) then Some(UnknownOperation)
      else if ReadsUnissued(log, tool, arguments) && parent.None? then Some(InvalidDeferredHandle) else None
    case ToolCallFinished(id, _, _, _, _, _, _, _, _, _) =>
      if OpenIn(log, id) then None else Some(ToolCallMismatch)
    case StepStarted(id, _, _, n, _, _, _, _, _) =>
      if StepEnd(log, id).Some? && !StepEnd(log, id).value.body.willRetry then Some(InconsistentStep)
      else if n != LastAttempt(log, id) + 1 then Some(NonConsecutiveAttempt) else None
    case StepCompleted(id, _, _, _, _, _, _) =>
      if Latest(log, StepStarts(id)) < 0 || StepEnd(log, id).Some? then Some(InconsistentStep) else None
    case QueueEnqueued(queue, id, _) =>
      if queue != NextRun && Latest(log, Aborts) >= 0 then Some(QueueAfterAbort)
      else if Latest(log, Enqueues(id)) >= 0 then Some(ProvisionedEntryMismatch) else None
    case QueueCancelled(id) => if PendingEntry(log, id) then None else Some(InvalidQueueCancellation)
    case QueueConsumed(id) => if PendingEntry(log, id) then None else Some(ProvisionedEntryMismatch)
    case Suspended(reason, _, _, _, _, _, _, pending, _) =>
      if Waits(log) then Some(MultipleOpenOperations)
      else if reason == Approval && pending.Some? && !OpenIn(log, pending.value) then Some(ToolCallMismatch) else None
    case Resumed(_, _) => if Waits(log) then None else Some(UnknownOperation)
    case CompactionApplied(from, to, _, _, _, cost) =>
      if to < from || to >= r.seqNo then Some(InvalidCompactionReason)
      else if OtherCurrency(log, cost) then Some(InconsistentCost) else None
    case SubagentSpawned(child, name, _, _, _, _, _, _) =>
      if Latest(log, Spawns(child)) >= 0 || NameTaken(log, name) then Some(MultipleOpenOperations) else None
    case SubagentMessaged(child) => if Latest(log, Spawns(child)) >= 0 then None else Some(UnknownOperation)
    case SubagentFinished(child, _, _, _, _, _, _, _, _) =>
      if Latest(log, Spawns(child)) < 0 then Some(UnknownOperation)
      else if Latest(log, Finishes(child)) >= 0 then Some(MultipleOpenOperations) else None
    case _ => None
  }

  predicate TurnOpen(log: seq<Record>) {
    Latest(log, TurnStarts) > Latest(log, TurnEnds)
  }

  predicate ModelCallOpen(log: seq<Record>) {
    Latest(log, ModelStarts) > Latest(log, TurnEnds)
  }

  function Max(a: nat, b: nat): nat {
    if a < b then b else a
  }

  /** A cost in another currency than one recorded before. */
  predicate OtherCurrency(log: seq<Record>, cost: Option<Cost>) {
    cost.Some? && Latest(log, Costed) >= 0 && CostOf(log[Latest(log, Costed)].body) != Some(cost.value.currency)
  }

  function CostOf(b: Body): Option<string> {
    if (b.ModelCallFinished? || b.CompactionApplied?) && b.cost.Some? then Some(b.cost.value.currency) else None
  }

  /** A call to read a stored result under a handle no call was given. */
  predicate ReadsUnissued(log: seq<Record>, tool: string, arguments: Dict) {
    && tool == "read_tool_output" && "handle" in arguments && arguments["handle"].Text?
    && Latest(log, Issues(arguments["handle"].s)) < 0
  }

  /** The number a step was last started with, 0 when it was not. */
  function LastAttempt(log: seq<Record>, id: StepId): nat {
    var i := Latest(log, StepStarts(id));
    if i >= 0 then log[i].body.attemptNumber else 0
  }

  predicate PendingEntry(log: seq<Record>, id: string) {
    Latest(log, Enqueues(id)) >= 0 && Latest(log, Cancels(id)) < 0 && Latest(log, Consumes(id)) < 0
  }

  /** Some child of the name has not ended. */
  predicate NameTaken(log: seq<Record>, name: string) {
    exists i :: 0 <= i < |log| && LiveAt(log, i, name)
  }

  predicate LiveAt(log: seq<Record>, i: nat, name: string)
    requires i < |log|
  {
    var b := log[i].body;
    b.SubagentSpawned? && b.name == name && Latest(log, Finishes(b.child)) < 0
  }

  /** Why a record cannot follow a log of the Run. */
  function Objection(runId: RunId, scope: Scope, log: seq<Record>, r: Record): Option<CorruptionReason> {
    if r.runId != runId || r.scope.tenant != scope.tenant then Some(UnknownOperation)
    else if r.seqNo != |log| + 1 then Some(NonConsecutiveSeq)
    else if Latest(log, Settlements) >= 0 && !r.body.RunSettled? then Some(RecordAfterFinish)
    else ObjectionTo(log, r)
  }

  // ----------------------------------------------------------- the arms agree

  lemma {:induction false} OthersAgree(f: Fold, log: seq<Record>, r: Record)
    requires LifeMeans(f.state.life, log)
    requires var b := r.body;
             || b.RunAdmitted? || b.AttemptStarted? || b.RunSettled? || b.AbortRequested? || b.TaskListUpdated?
             || b.ComponentShown?
    ensures Check(f, r) == ObjectionTo(log, r)
  {
  }

  lemma {:induction false} TurnsAgree(f: Fold, log: seq<Record>, r: Record)
    requires TurnsMean(f.state.turns, log)
    requires r.body.TurnStarted? || r.body.ModelCallStarted? || r.body.ModelCallFailed?
    ensures Check(f, r) == ObjectionTo(log, r)
  {
  }

  /** The currency of the bill is that of the latest cost recorded. */
  ghost predicate CurrencyMeans(b: Bill, log: seq<Record>) {
    var i := Latest(log, Costed);
    && (b.cost.Some? <==> i >= 0)
    && (i >= 0 ==> CostOf(log[i].body) == Some(b.cost.value.currency))
  }

  lemma {:induction false} CurrencyNext(b: Bill, log: seq<Record>)
    requires log != [] && CurrencyMeans(b, Init(log))
    ensures CurrencyMeans(BillStep(b, Last(log).body), log)
  {
    BillCurrency(b, Last(log).body);
  }

  lemma {:induction false} BillCurrency(b: Bill, body: Body)
    ensures var cost := BillStep(b, body).cost;
            if CostOf(body).Some? then cost.Some? && cost.value.currency == CostOf(body).value else cost == b.cost
  {
  }

  lemma {:induction false} CurrencyAlways(runId: RunId, scope: Scope, log: seq<Record>)
    requires Accepts(Fresh(runId, scope), log)
    ensures CurrencyMeans(After(Fresh(runId, scope), log).state.bill, log)
  {
    if log != [] {
      History.Before(runId, scope, log);
      CurrencyAlways(runId, scope, Init(log));
      Parts(After(Fresh(runId, scope), Init(log)), Last(log));
      CurrencyNext(After(Fresh(runId, scope), Init(log)).state.bill, log);
    }
  }

  lemma {:induction false} CostAgrees(f: Fold, log: seq<Record>, r: Record)
    requires TurnsMean(f.state.turns, log) && CurrencyMeans(f.state.bill, log)
    requires r.body.ModelCallFinished? || r.body.CompactionApplied?
    ensures Check(f, r) == ObjectionTo(log, r)
  {
  }

  lemma {:induction false} CallStartAgrees(f: Fold, log: seq<Record>, r: Record)
    requires HandlesMean(f.state.calls.handles, log) && CallLocalsMean(f.locals, log) && TurnsMean(f.state.turns, log)
    requires r.body.ToolCallStarted?
    ensures Check(f, r) == ObjectionTo(log, r)
  {
    var b := r.body;
    assert CallLocalMeans(f.locals, log, b.callId);
    if "handle" in b.arguments && b.arguments["handle"].Text? {
      assert HandleMeans(f.state.calls.handles, log, b.arguments["handle"].s);
    }
  }

  lemma {:induction false} CallEndAgrees(f: Fold, log: seq<Record>, r: Record)
    requires OpenMeans(f.state.calls.open, log) && r.body.ToolCallFinished?
    ensures Check(f, r) == ObjectionTo(log, r)
  {
  }

  /** Nothing ends that was not started. */
  lemma {:induction false} NoEndWithoutStart(runId: RunId, scope: Scope, log: seq<Record>, id: StepId)
    requires Accepts(Fresh(runId, scope), log)
    ensures Latest(log, StepStarts(id)) < 0 ==> Latest(log, StepEnds(id)) < 0
  {
    if log != [] {
      var f := After(Fresh(runId, scope), Init(log));
      History.Before(runId, scope, log);
      NoEndWithoutStart(runId, scope, Init(log), id);
      StepKinds(log, id);
      if Last(log).body.StepCompleted? && Last(log).body.stepId == id {
        StateMeans(runId, scope, Init(log));
        CheckedFits(f, Last(log));
        assert StepMeans(f.state.steps.steps, Init(log), id);
      }
    }
  }

  /** A step as the checks read it. */
  ghost predicate StepReads(steps: map<StepId, StepRecord>, log: seq<Record>, id: StepId) {
    && (id in steps <==> Latest(log, StepStarts(id)) >= 0)
    && (id in steps ==>
          && steps[id].attemptNumber == LastAttempt(log, id)
          && (steps[id].completed <==> StepEnd(log, id).Some?)
          && (steps[id].completed ==> steps[id].willRetry == StepEnd(log, id).value.body.willRetry))
    && (id !in steps ==> LastAttempt(log, id) == 0 && StepEnd(log, id).None?)
  }

  lemma {:induction false} StepIs(runId: RunId, scope: Scope, s: Steps, log: seq<Record>, id: StepId)
    requires Accepts(Fresh(runId, scope), log) && StepsMean(s, log)
    ensures StepReads(s.steps, log, id)
  {
    NoEndWithoutStart(runId, scope, log, id);
    assert StepMeans(s.steps, log, id);
  }

  lemma {:induction false} StepStartAgrees(f: Fold, log: seq<Record>, r: Record)
    requires r.body.StepStarted? && StepReads(f.state.steps.steps, log, r.body.stepId)
    ensures Check(f, r) == ObjectionTo(log, r)
  {
  }

  lemma {:induction false} StepEndAgrees(f: Fold, log: seq<Record>, r: Record)
    requires r.body.StepCompleted? && StepReads(f.state.steps.steps, log, r.body.stepId)
    ensures Check(f, r) == ObjectionTo(log, r)
  {
  }

  lemma {:induction false} StepsAgree(runId: RunId, scope: Scope, f: Fold, log: seq<Record>, r: Record)
    requires Accepts(Fresh(runId, scope), log) && StepsMean(f.state.steps, log)
    requires r.body.StepStarted? || r.body.StepCompleted?
    ensures Check(f, r) == ObjectionTo(log, r)
  {
    StepIs(runId, scope, f.state.steps, log, r.body.stepId);
    if r.body.StepStarted? {
      StepStartAgrees(f, log, r);
    } else {
      StepEndAgrees(f, log, r);
    }
  }

  /** An entry id as the checks read it. */
  ghost predicate EntryReads(l: Locals, log: seq<Record>, id: string) {
    && (id in l.enqueued <==> Latest(log, Enqueues(id)) >= 0)
    && (id in l.enqueued ==> l.enqueued[id].enqueuedSeq <= |log|)
    && (id in l.cancelled <==> Latest(log, Cancels(id)) >= 0)
    && (id in l.consumed <==> Latest(log, Consumes(id)) >= 0)
  }

  lemma {:induction false} EnqueueAgrees(f: Fold, log: seq<Record>, r: Record)
    requires r.body.QueueEnqueued? && EntryReads(f.locals, log, r.body.entryId) && r.seqNo == |log| + 1
    requires f.state.queues.abortSeq.Some? <==> Latest(log, Aborts) >= 0
    requires f.state.queues.abortSeq.Some? ==> f.state.queues.abortSeq.value <= |log|
    ensures Check(f, r) == ObjectionTo(log, r)
  {
  }

  lemma {:induction false} WithdrawalAgrees(f: Fold, log: seq<Record>, r: Record)
    requires r.body.QueueCancelled? || r.body.QueueConsumed?
    requires EntryReads(f.locals, log, r.body.entryId) && r.seqNo == |log| + 1
    ensures Check(f, r) == ObjectionTo(log, r)
  {
  }

  lemma {:induction false} QueuesAgree(f: Fold, log: seq<Record>, r: Record)
    requires LocalsMean(f.locals, log) && AbortMeans(f.state.queues, log) && InPlace(log) && r.seqNo == |log| + 1
    requires r.body.QueueEnqueued? || r.body.QueueCancelled? || r.body.QueueConsumed?
    ensures Check(f, r) == ObjectionTo(log, r)
  {
    EntryIs(f.locals, log, r.body.entryId);
    AbortIs(f.state.queues, log);
    if r.body.QueueEnqueued? {
      EnqueueAgrees(f, log, r);
    } else {
      WithdrawalAgrees(f, log, r);
    }
  }

  lemma {:induction false} EntryIs(l: Locals, log: seq<Record>, id: string)
    requires LocalsMean(l, log) && InPlace(log)
    ensures EntryReads(l, log, id)
  {
    assert EntryMeans(l, log, id);
  }

  lemma {:induction false} AbortIs(q: Queues, log: seq<Record>)
    requires AbortMeans(q, log) && InPlace(log)
    ensures q.abortSeq.Some? <==> Latest(log, Aborts) >= 0
    ensures q.abortSeq.Some? ==> q.abortSeq.value <= |log|
  {
    SomeWhere(log, Aborts);
  }

  /** Records numbered from 1. */
  ghost predicate InPlace(log: seq<Record>) {
    forall i :: 0 <= i < |log| ==> log[i].seqNo == i + 1
  }

  lemma {:induction false} SuspensionAgrees(f: Fold, log: seq<Record>, r: Record)
    requires PauseMeans(f.state.waiting, log) && OpenMeans(f.state.calls.open, log) && r.body.Suspended?
    ensures Check(f, r) == ObjectionTo(log, r)
  {
  }

  lemma {:induction false} ResumeAgrees(f: Fold, log: seq<Record>, r: Record)
    requires PauseMeans(f.state.waiting, log) && r.body.Resumed?
    ensures Check(f, r) == ObjectionTo(log, r)
  {
  }

  lemma {:induction false} ChildIs(f: Family, log: seq<Record>, c: RunId)
    requires FamilyMeans(f, log)
    ensures c in f.children <==> Latest(log, Spawns(c)) >= 0
    ensures c in f.children ==>
              f.children[c].name == log[Latest(log, Spawns(c))].body.name
              && (f.children[c].Alive() <==> Latest(log, Finishes(c)) < 0)
  {
    assert ChildMeans(f.children, log, c);
  }

  lemma {:induction false} TakenIsLive(f: Family, log: seq<Record>, i: nat, name: string)
    requires FamilyMeans(f, log) && OneSpawnEach(log) && i < |log| && LiveAt(log, i, name)
    ensures LiveName(f, name)
  {
    var c := log[i].body.child;
    assert Latest(log, Spawns(c)) == i;
    ChildIs(f, log, c);
    assert c in f.children && f.children[c].name == name && f.children[c].Alive();
  }

  lemma {:induction false} LiveIsTaken(f: Family, log: seq<Record>, c: RunId, name: string)
    requires FamilyMeans(f, log) && c in f.children && f.children[c].name == name && f.children[c].Alive()
    ensures NameTaken(log, name)
  {
    ChildIs(f, log, c);
    assert LiveAt(log, Latest(log, Spawns(c)), name);
  }

  lemma {:induction false} NamesAgree(f: Family, log: seq<Record>, name: string)
    requires FamilyMeans(f, log) && OneSpawnEach(log)
    ensures LiveName(f, name) <==> NameTaken(log, name)
  {
    if LiveName(f, name) {
      var c :| c in f.children && f.children[c].name == name && f.children[c].Alive();
      LiveIsTaken(f, log, c, name);
    }
    if NameTaken(log, name) {
      var i :| 0 <= i < |log| && LiveAt(log, i, name);
      TakenIsLive(f, log, i, name);
    }
  }

  ghost predicate OneSpawnEach(log: seq<Record>) {
    forall i :: 0 <= i < |log| && log[i].body.SubagentSpawned? ==> Latest(log, Spawns(log[i].body.child)) == i
  }

  lemma {:induction false} FamilyAgrees(f: Fold, log: seq<Record>, r: Record)
    requires FamilyMeans(f.state.family, log) && OneSpawnEach(log)
    requires r.body.SubagentSpawned? || r.body.SubagentMessaged? || r.body.SubagentFinished?
    ensures Check(f, r) == ObjectionTo(log, r)
  {
    ChildIs(f.state.family, log, r.body.child);
    if r.body.SubagentSpawned? {
      NamesAgree(f.state.family, log, r.body.name);
    }
  }

  /** In an accepted log a child is spawned once. */
  lemma {:induction false} SpawnedOnce(runId: RunId, scope: Scope, log: seq<Record>)
    requires Accepts(Fresh(runId, scope), log)
    ensures OneSpawnEach(log)
  {
    if log != [] {
      History.Before(runId, scope, log);
      SpawnedOnce(runId, scope, Init(log));
      if Last(log).body.SubagentSpawned? {
        NewChild(runId, scope, log);
      }
      SpawnsNext(log);
    }
  }

  lemma {:induction false} NewChild(runId: RunId, scope: Scope, log: seq<Record>)
    requires Accepts(Fresh(runId, scope), log) && log != [] && Last(log).body.SubagentSpawned?
    ensures Latest(Init(log), Spawns(Last(log).body.child)) < 0
  {
    History.Before(runId, scope, log);
    var f := After(Fresh(runId, scope), Init(log));
    StateMeans(runId, scope, Init(log));
    Parts(f, Last(log));
    CheckedFits(f, Last(log));
    ChildIs(f.state.family, Init(log), Last(log).body.child);
  }

  lemma {:induction false} SpawnsNext(log: seq<Record>)
    requires log != [] && OneSpawnEach(Init(log))
    requires Last(log).body.SubagentSpawned? ==> Latest(Init(log), Spawns(Last(log).body.child)) < 0
    ensures OneSpawnEach(log)
  {
    forall i | 0 <= i < |log| && log[i].body.SubagentSpawned? ensures Latest(log, Spawns(log[i].body.child)) == i {
      ChildKinds(log, log[i].body.child);
      if i < |log| - 1 {
        assert Init(log)[i] == log[i];
      }
    }
  }

  lemma {:induction false} ChecksAgree(runId: RunId, scope: Scope, log: seq<Record>, r: Record)
    requires Accepts(Fresh(runId, scope), log) && r.seqNo == |log| + 1
    ensures Check(After(Fresh(runId, scope), log), r) == ObjectionTo(log, r)
  {
    var f := After(Fresh(runId, scope), log);
    StateMeans(runId, scope, log);
    CurrencyAlways(runId, scope, log);
    SpawnedOnce(runId, scope, log);
    Numbered(Fresh(runId, scope), log);
    match r.body
    case TurnStarted(_) => TurnsAgree(f, log, r);
    case ModelCallStarted(_, _) => TurnsAgree(f, log, r);
    case ModelCallFailed(_, _, _, _) => TurnsAgree(f, log, r);
    case ModelCallFinished(_, _, _, _, _, _, _) => CostAgrees(f, log, r);
    case CompactionApplied(_, _, _, _, _, _) => CostAgrees(f, log, r);
    case ToolCallStarted(_, _, _, _, _, _, _, _) => CallStartAgrees(f, log, r);
    case ToolCallFinished(_, _, _, _, _, _, _, _, _, _) => CallEndAgrees(f, log, r);
    case StepStarted(_, _, _, _, _, _, _, _, _) => StepsAgree(runId, scope, f, log, r);
    case StepCompleted(_, _, _, _, _, _, _) => StepsAgree(runId, scope, f, log, r);
    case QueueEnqueued(_, _, _) => QueuesAgree(f, log, r);
    case QueueCancelled(_) => QueuesAgree(f, log, r);
    case QueueConsumed(_) => QueuesAgree(f, log, r);
    case Suspended(_, _, _, _, _, _, _, _, _) => SuspensionAgrees(f, log, r);
    case Resumed(_, _) => ResumeAgrees(f, log, r);
    case SubagentSpawned(_, _, _, _, _, _, _, _) => FamilyAgrees(f, log, r);
    case SubagentMessaged(_) => FamilyAgrees(f, log, r);
    case SubagentFinished(_, _, _, _, _, _, _, _, _) => FamilyAgrees(f, log, r);
    case _ => OthersAgree(f, log, r);
  }

  /** One record after an accepted log: accepted, or refused for the reason the log gives. */
  lemma {:induction false} StepExactly(runId: RunId, scope: Scope, log: seq<Record>, r: Record)
    requires Accepts(Fresh(runId, scope), log)
    ensures var why := Objection(runId, scope, log, r);
            if why.Some? then Step(After(Fresh(runId, scope), log), r) == Refused(why.value, r.seqNo)
            else Step(After(Fresh(runId, scope), log), r).Accepted?
  {
    Numbered(Fresh(runId, scope), log);
    SettledIs(runId, scope, log);
    if r.seqNo == |log| + 1 {
      ChecksAgree(runId, scope, log, r);
    }
  }

  lemma {:induction false} SettledIs(runId: RunId, scope: Scope, log: seq<Record>)
    requires Accepts(Fresh(runId, scope), log)
    ensures After(Fresh(runId, scope), log).state.life.settled <==> Latest(log, Settlements) >= 0
  {
    StateMeans(runId, scope, log);
  }

  /** The first record of a log that cannot follow those before it, and why. */
  function FirstObjection(runId: RunId, scope: Scope, log: seq<Record>): (k: Option<(nat, CorruptionReason)>)
    ensures k.Some? ==> k.value.0 < |log|
  {
    if log == [] then None
    else
      var earlier, why := FirstObjection(runId, scope, Init(log)), Objection(runId, scope, Init(log), Last(log));
      if earlier.Some? then earlier else if why.Some? then Some((|log| - 1, why.value)) else None
  }

  lemma {:induction false} FirstIs(runId: RunId, scope: Scope, log: seq<Record>)
    ensures var k := FirstObjection(runId, scope, log);
            && (forall i :: 0 <= i < (if k.Some? then k.value.0 else |log|) ==>
                  Objection(runId, scope, log[..i], log[i]).None?)
            && (k.Some? ==> Objection(runId, scope, log[..k.value.0], log[k.value.0]) == Some(k.value.1))
  {
    if log != [] {
      FirstIs(runId, scope, Init(log));
      forall i | 0 <= i < |log| - 1
        ensures Objection(runId, scope, log[..i], log[i]) == Objection(runId, scope, Init(log)[..i], Init(log)[i])
      {
        assert log[..i] == Init(log)[..i];
      }
      assert log[..|log| - 1] == Init(log);
    }
  }

  /** What `reduce` answers for a log of a Run, from the log alone: it is accepted exactly when
      no record is objectionable where it stands, and otherwise refused at the first that is,
      for that reason. */
  lemma {:induction false} ReducedExactly(runId: RunId, scope: Scope, log: seq<Record>)
    ensures var k := FirstObjection(runId, scope, log);
            if k.None? then Accepts(Fresh(runId, scope), log)
            else Run(Fresh(runId, scope), log) == Refused(k.value.1, log[k.value.0].seqNo)
  {
    if log != [] {
      ReducedExactly(runId, scope, Init(log));
      if FirstObjection(runId, scope, Init(log)).None? {
        StepExactly(runId, scope, Init(log), Last(log));
      }
    }
  }

  /** `reduce` without a prior: a misuse without records, and otherwise the Run is the one asked
      for, or the first record's, and the tenant is the first record's. */
  lemma {:induction false} ReduceAnswers(records: seq<Record>, runId: Option<RunId>)
    ensures records == [] ==> Reduce(records, runId, None) == Misused
    ensures records != [] ==>
              var id, scope := if runId == None then records[0].runId else runId.value, records[0].scope;
              var k := FirstObjection(id, scope, records);
              if k.Some? then Reduce(records, runId, None) == Refused(k.value.1, records[k.value.0].seqNo)
              else
                && Accepts(Fresh(id, scope), records)
                && Reduce(records, runId, None) == Accepted(After(Fresh(id, scope), records).state)
  {
    if records != [] {
      ReducedExactly(if runId == None then records[0].runId else runId.value, records[0].scope, records);
    }
  }

  /** Onto a prior it is the prior's Run, and asking for another is a misuse. */
  lemma {:induction false} ReduceOnto(records: seq<Record>, runId: Option<RunId>, prior: State)
    ensures runId.Some? && runId.value != prior.runId ==> Reduce(records, runId, Some(prior)) == Misused
    ensures runId == None || runId.value == prior.runId ==>
              Reduce(records, runId, Some(prior))
              == match Run(StartFrom(prior), records)
                 case Accepted(f) => Accepted(f.state)
                 case Refused(reason, seqNo) => Refused(reason, seqNo)
                 case Misused => Misused
  {
  }
}
