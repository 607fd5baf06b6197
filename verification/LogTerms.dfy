/** What can be said of a log without folding it: which records there are of a kind, where the
    latest one is, and which earlier record another one refers to. */
module LogTerms {
  import opened Values
  import opened Records

  /** The kinds of record a question about a log can be about. */
  datatype Kind =
    | Admissions | Attempts | Settlements
    | TurnStarts | TurnEnds | ModelStarts | ModelEnds | Retries
    | AllCallStarts | CallStarts(call: CallId) | RunCodeStarts(call: CallId)
    | AllCallEnds | CallEnds(call: CallId) | Issues(handle: string)
    | AllStepStarts | StepStarts(step: StepId) | StepEnds(step: StepId)
    | Aborts | Enqueues(entry: string) | Cancels(entry: string) | Consumes(entry: string)
    | Suspensions | Resumes
    | AllSpawns | Spawns(child: RunId) | Messages(child: RunId) | Finishes(child: RunId)
    | TaskLists | Components | Costed

  predicate Is(r: Record, k: Kind) {
    var b := r.body;
    match k
    case Admissions => b.RunAdmitted?
    case Attempts => b.AttemptStarted?
    case Settlements => b.RunSettled?
    case TurnStarts => b.TurnStarted?
    case TurnEnds =>
      b.AttemptStarted? || b.ModelCallFinished? || b.ModelCallFailed? || b.Suspended? || b.RunSettled?
    case ModelStarts => b.ModelCallStarted?
    case ModelEnds => b.ModelCallFinished?
    case Retries => b.ModelCallFailed? && b.willRetry
    case AllCallStarts => b.ToolCallStarted?
    case CallStarts(id) => b.ToolCallStarted? && b.callId == id
    case RunCodeStarts(id) => b.ToolCallStarted? && b.callId == id && b.tool == "run_code"
    case AllCallEnds => b.ToolCallFinished?
    case CallEnds(id) => b.ToolCallFinished? && b.callId == id
    case Issues(h) =>
      b.ToolCallFinished?
      && (b.resultHandle == Some(h) || exists a :: a in b.attachments && a.readable && a.handle == h)
    case AllStepStarts => b.StepStarted?
    case StepStarts(id) => b.StepStarted? && b.stepId == id
    case StepEnds(id) => b.StepCompleted? && b.stepId == id
    case Aborts => b.AbortRequested?
    case Enqueues(id) => b.QueueEnqueued? && b.entryId == id
    case Cancels(id) => b.QueueCancelled? && b.entryId == id
    case Consumes(id) => b.QueueConsumed? && b.entryId == id
    case Suspensions => b.Suspended?
    case Resumes => b.Resumed?
    case AllSpawns => b.SubagentSpawned?
    case Spawns(c) => b.SubagentSpawned? && b.child == c
    case Messages(c) => b.SubagentMessaged? && b.child == c
    case Finishes(c) => b.SubagentFinished? && b.child == c
    case TaskLists => b.TaskListUpdated?
    case Components => b.ComponentShown?
    case Costed => (b.ModelCallFinished? || b.CompactionApplied?) && b.cost.Some?
  }

  /** Where the latest record of a kind is, or -1. */
  function Latest(log: seq<Record>, k: Kind): (i: int)
    ensures -1 <= i < |log|
    ensures i >= 0 ==> Is(log[i], k)
  {
    if log == [] then -1
    else if Is(Last(log), k) then |log| - 1
    else Latest(Init(log), k)
  }

  /** There is none after it. */
  lemma {:induction false} NoneLater(log: seq<Record>, k: Kind)
    ensures forall j :: Latest(log, k) < j < |log| ==> !Is(log[j], k)
  {
    if log != [] && !Is(Last(log), k) {
      NoneLater(Init(log), k);
      assert forall j :: 0 <= j < |Init(log)| ==> Init(log)[j] == log[j];
    }
  }

  /** Where the records of a kind are, in order. */
  function Where(log: seq<Record>, k: Kind): (at: seq<nat>)
    ensures forall n :: 0 <= n < |at| ==> at[n] < |log| && Is(log[at[n]], k)
  {
    if log == [] then []
    else if Is(Last(log), k) then Where(Init(log), k) + [|log| - 1]
    else Where(Init(log), k)
  }

  function Count(log: seq<Record>, k: Kind): nat {
    |Where(log, k)|
  }

  /** None of them is left out, and they are in order. */
  lemma {:induction false} WhereAll(log: seq<Record>, k: Kind)
    ensures forall m, n :: 0 <= m < n < |Where(log, k)| ==> Where(log, k)[m] < Where(log, k)[n]
    ensures forall i :: 0 <= i < |log| && Is(log[i], k) ==> i in Where(log, k)
  {
    if log != [] {
      WhereAll(Init(log), k);
    }
    forall i | 0 <= i < |log| && Is(log[i], k) ensures i in Where(log, k) {
      WhereHas(log, k, i);
    }
  }

  lemma {:induction false} WhereHas(log: seq<Record>, k: Kind, i: nat)
    requires i < |log| && Is(log[i], k)
    ensures i in Where(log, k)
  {
    if i < |log| - 1 {
      assert Init(log)[i] == log[i];
      WhereHas(Init(log), k, i);
    } else {
      assert Where(log, k)[|Where(log, k)| - 1] == i;
    }
  }

  lemma {:induction false} SomeWhere(log: seq<Record>, k: Kind)
    ensures Latest(log, k) >= 0 <==> Where(log, k) != []
    ensures Where(log, k) != [] ==> Last(Where(log, k)) == Latest(log, k)
  {
    if log != [] && !Is(Last(log), k) {
      SomeWhere(Init(log), k);
    }
  }

  lemma {:induction false} Unchanged(log: seq<Record>, k: Kind)
    requires log != [] && !Is(Last(log), k)
    ensures Latest(log, k) == Latest(Init(log), k) && Where(log, k) == Where(Init(log), k)
  {
  }

  // ------------------------------------- records that refer to earlier ones

  /** What a record can be by virtue of those before it. */
  datatype Event =
    | PayloadFor(call: CallId)    // a resume with a payload, of a suspension on this call
    | DecisionFor(call: CallId)   // a resume with a decision, of a suspension on this call
    | AnswerTo(step: StepId)      // a resume of a suspension at this step
    | ModeSet                     // what last set the step mode
    | ByProgram                   // a call made by a run_code program
    | Preserved                   // a program's call that ended behind a handle
    | AnyResume

  /** The suspension the resume at `i` answers. */
  function Answered(log: seq<Record>, i: nat): (s: int)
    requires i < |log|
    ensures -1 <= s < i && (s >= 0 ==> log[s].body.Suspended?)
  {
    Latest(log[..i], Suspensions)
  }

  predicate ResumeOf(log: seq<Record>, i: nat)
    requires i < |log|
  {
    log[i].body.Resumed? && Answered(log, i) >= 0
  }

  /** Whether a program made the call that starts at `i`: its parent started as run_code. */
  predicate MadeByProgram(log: seq<Record>, i: nat)
    requires i < |log|
  {
    var b := log[i].body;
    b.ToolCallStarted? && b.tool != "run_code" && b.parentCallId.Some?
    && Latest(log[..i], RunCodeStarts(b.parentCallId.value)) >= 0
  }

  predicate Happens(log: seq<Record>, i: nat, e: Event)
    requires i < |log|
  {
    var b := log[i].body;
    match e
    case PayloadFor(id) => ResumeOf(log, i) && |b.payload| > 0 && log[Answered(log, i)].body.pendingCallId == Some(id)
    case DecisionFor(id) => ResumeOf(log, i) && b.approved.Some? && log[Answered(log, i)].body.pendingCallId == Some(id)
    case AnswerTo(id) => ResumeOf(log, i) && log[Answered(log, i)].body.atStep == Some(id)
    case ModeSet =>
      || b.RunAdmitted?
      || (ResumeOf(log, i) && log[Answered(log, i)].body.reason == Breakpoint
          && log[Answered(log, i)].body.atStep.Some? && "step_mode" in b.payload && b.payload["step_mode"].Bool?)
    case ByProgram => MadeByProgram(log, i)
    case Preserved =>
      b.ToolCallFinished? && b.resultHandle.Some?
      && Latest(log[..i], CallStarts(b.callId)) >= 0 && MadeByProgram(log, Latest(log[..i], CallStarts(b.callId)))
    case AnyResume => ResumeOf(log, i)
  }

  /** Where they are, in order. */
  function When(log: seq<Record>, e: Event): (at: seq<nat>)
    ensures forall n :: 0 <= n < |at| ==> at[n] < |log|
  {
    if log == [] then []
    else if Happens(log, |log| - 1, e) then When(Init(log), e) + [|log| - 1]
    else When(Init(log), e)
  }

  /** Whether a record is such an event does not depend on what comes after it. */
  lemma {:induction false} HappensEarlier(log: seq<Record>, n: nat, i: nat, e: Event)
    requires i < n <= |log|
    ensures Happens(log[..n], i, e) == Happens(log, i, e)
    ensures Answered(log[..n], i) == Answered(log, i)
    ensures MadeByProgram(log[..n], i) == MadeByProgram(log, i)
  {
    assert log[..n][..i] == log[..i];
    if log[i].body.ToolCallFinished? {
      var s := Latest(log[..i], CallStarts(log[i].body.callId));
      if s >= 0 {
        assert log[..n][..s] == log[..s];
      }
    }
  }

  /** They are all there, and nothing else. */
  lemma {:induction false} WhenAll(log: seq<Record>, e: Event)
    ensures forall m, n :: 0 <= m < n < |When(log, e)| ==> When(log, e)[m] < When(log, e)[n]
    ensures forall i: nat :: i in When(log, e) <==> i < |log| && Happens(log, i, e)
  {
    if log != [] {
      WhenAll(Init(log), e);
    }
    forall i: nat ensures i in When(log, e) <==> i < |log| && Happens(log, i, e) {
      WhenHas(log, e, i);
    }
  }

  lemma {:induction false} WhenHas(log: seq<Record>, e: Event, i: nat)
    ensures i in When(log, e) <==> i < |log| && Happens(log, i, e)
  {
    if log != [] {
      WhenHas(Init(log), e, i);
      if i < |log| - 1 {
        HappensEarlier(log, |log| - 1, i, e);
      }
    }
  }
}
