/** Two ways to tell a peer how a Run stands: the events its log implies, and the snapshot of
    its folded state. */
module TaskStream {
  import opened Values
  import opened Records
  import opened Reducer
  import opened LogTerms
  import History

  datatype TaskState =
    | Submitted | Working | Done | Failing | Canceled | InputRequired | AuthRequired

  type SuspendStates = SuspendReason -> TaskState

  /** The default table. A timer and a wait for children ask nothing of anybody. */
  function DefaultSuspendState(reason: SuspendReason): TaskState {
    match reason
    case Approval => InputRequired
    case Question => InputRequired
    case External => AuthRequired
    case Timer => Working
    case Breakpoint => InputRequired
    case Children => Working
  }

  function TerminalTaskState(t: TerminalState): TaskState {
    match t
    case Completed => Done
    case Failed => Failing
    case Aborted => Canceled
    case Abandoned => Failing
    case ForceSettled => Failing
  }

  // ----------------------------------------------------------- the snapshot

  datatype Lifecycle = Queued | Running | Waiting | Stopping | Ended | Broken | Stopped

  function SettledLifecycle(t: TerminalState): Lifecycle {
    match t
    case Completed => Ended
    case Failed => Broken
    case _ => Stopped
  }

  /** `_lifecycle` */
  function LifecycleOf(s: State): Lifecycle {
    if s.life.settled && s.life.terminal.Some? then SettledLifecycle(s.life.terminal.value)
    else if s.queues.abortSeq.Some? then Stopping
    else if s.waiting.suspended then Lifecycle.Waiting
    else if s.life.attemptCount == 0 then Queued
    else Running
  }

  function LifecycleTaskState(l: Lifecycle): TaskState {
    match l
    case Queued => Submitted
    case Running => Working
    case Stopping => Working
    case Waiting => InputRequired
    case Ended => Done
    case Broken => Failing
    case Stopped => Canceled
  }

  /** `task_state_of(status_of(state))` */
  function TaskStateOf(s: State, table: SuspendStates): TaskState {
    if s.life.terminal.Some? then TerminalTaskState(s.life.terminal.value)
    else if LifecycleOf(s) == Lifecycle.Waiting && s.waiting.pause.reason.Some? then table(s.waiting.pause.reason.value)
    else LifecycleTaskState(LifecycleOf(s))
  }

  // -------------------------------------------------------------- the stream

  datatype StreamEvent =
    | StatusUpdate(taskId: RunId, state: TaskState, message: Option<string>, at: int)
    | ArtifactUpdate(taskId: RunId, text: string)

  /** The state a record announces, if it is one that does. */
  function Announces(b: Body, table: SuspendStates): Option<TaskState> {
    match b
    case RunAdmitted(_, _, _, _, _, _, _, _, _, _, _) => Some(Submitted)
    case AttemptStarted(_) => Some(Working)
    case Suspended(reason, _, _, _, _, _, _, _, _) => Some(table(reason))
    case Resumed(_, _) => Some(Working)
    case RunSettled(terminal, _, _) => Some(TerminalTaskState(terminal))
    case _ => None
  }

  /** What it says along with it: a non-empty question, or a failure. */
  function Saying(b: Body): Option<string> {
    if b.Suspended? && b.question.Some? && b.question.value != "" then b.question
    else if b.RunSettled? && b.failure.Some? then Some(b.failure.value.message)
    else None
  }

  /** The state last announced. */
  function Announced(log: seq<Record>, table: SuspendStates): Option<TaskState> {
    if log == [] then None
    else
      var a := Announces(Last(log).body, table);
      if a.Some? then a else Announced(Init(log), table)
  }

  /** The events of a log: one for each change of state or message, and the answer before the
      ending. */
  function Streamed(log: seq<Record>, answer: Option<string>, table: SuspendStates): seq<StreamEvent> {
    if log == [] then []
    else
      Streamed(Init(log), answer, table)
      + Artifacts(Last(log), answer)
      + Statuses(Last(log), Announced(Init(log), table), table)
  }

  /** The answer a settlement brings, if there is one. */
  function Artifacts(r: Record, answer: Option<string>): seq<StreamEvent> {
    if r.body.RunSettled? && answer.Some? then [ArtifactUpdate(r.runId, answer.value)] else []
  }

  /** The status a record is worth, given the state last announced. */
  function Statuses(r: Record, state: Option<TaskState>, table: SuspendStates): seq<StreamEvent> {
    var a := Announces(r.body, table);
    if a.Some? && (a != state || Saying(r.body).Some?)
    then [StatusUpdate(r.runId, a.value, Saying(r.body), r.at)] else []
  }

  /** `stream_events`, for the artifact its answer gives, if any. */
  method StreamEvents(log: seq<Record>, answer: Option<string>, table: SuspendStates)
    returns (events: seq<StreamEvent>)
    ensures events == Streamed(log, answer, table)
  {
    events := [];
    var state: Option<TaskState> := None;
    var i := 0;
    while i < |log|
      invariant 0 <= i <= |log|
      invariant events == Streamed(log[..i], answer, table)
      invariant state == Announced(log[..i], table)
    {
      var r := log[i];
      assert Init(log[..i + 1]) == log[..i];
      if r.body.RunSettled? && answer.Some? {
        events := events + [ArtifactUpdate(r.runId, answer.value)];
      }
      var announced := Announces(r.body, table);
      if announced.Some? {
        var message := Saying(r.body);
        if announced != state || message.Some? {
          state := announced;
          events := events + [StatusUpdate(r.runId, announced.value, message, r.at)];
        }
      }
      i := i + 1;
    }
    assert log[..i] == log;
  }

  /** The state of the last status event: what a client holding the stream believes. */
  function LastState(events: seq<StreamEvent>): Option<TaskState> {
    if events == [] then None
    else if Last(events).StatusUpdate? then Some(Last(events).state)
    else LastState(Init(events))
  }

  lemma LastStateSnoc(events: seq<StreamEvent>, e: StreamEvent)
    ensures LastState(events + [e]) == if e.StatusUpdate? then Some(e.state) else LastState(events)
  {
    assert Init(events + [e]) == events;
  }

  /** Events after which the last state is the one before them, unless they bring one. */
  lemma LastStateAppend(events: seq<StreamEvent>, more: seq<StreamEvent>)
    requires |more| <= 1
    ensures LastState(events + more)
            == if more != [] && more[0].StatusUpdate? then Some(more[0].state) else LastState(events)
  {
    if more == [] {
      assert events + more == events;
    } else {
      assert more == [more[0]];
      LastStateSnoc(events, more[0]);
    }
  }

  /** Leaving out repeated states leaves nothing unsaid. */
  lemma {:induction false} StreamEndsAsAnnounced(log: seq<Record>, answer: Option<string>, table: SuspendStates)
    ensures LastState(Streamed(log, answer, table)) == Announced(log, table)
  {
    if log != [] {
      var before, state := Streamed(Init(log), answer, table), Announced(Init(log), table);
      var artifacts, statuses := Artifacts(Last(log), answer), Statuses(Last(log), state, table);
      StreamEndsAsAnnounced(Init(log), answer, table);
      LastStateAppend(before, artifacts);
      LastStateAppend(before + artifacts, statuses);
      assert Streamed(log, answer, table) == before + artifacts + statuses;
    }
  }

  // ------------------------------------------------------- the two together

  predicate HasAttempt(log: seq<Record>) {
    log != [] && (Last(log).body.AttemptStarted? || HasAttempt(Init(log)))
  }

  /** A suspension with no resume after it. */
  predicate Waits(log: seq<Record>) {
    log != []
    && (Last(log).body.Suspended? || (!Last(log).body.Resumed? && Waits(Init(log))))
  }

  /** The producer's discipline: admission first, no suspension before the first attempt, no
      attempt while a suspension waits. */
  predicate Orderly(log: seq<Record>) {
    log != [] ==>
      && Orderly(Init(log))
      && (|log| == 1 ==> Last(log).body.RunAdmitted?)
      && (Last(log).body.Suspended? ==> HasAttempt(Init(log)))
      && (Last(log).body.AttemptStarted? ==> !Waits(Init(log)))
  }

  lemma StandingEffect(f: Fold, r: Record)
    requires Step(f, r).Accepted?
    ensures var l, l', w, w', b := f.state.life, Step(f, r).value.state.life,
              f.state.waiting, Step(f, r).value.state.waiting, r.body;
            && (b.RunAdmitted? ==> !l.admitted)
            && (l'.admitted <==> l.admitted || b.RunAdmitted?)
            && (b.AttemptStarted? ==> l.admitted && l'.attemptCount == l.attemptCount + 1)
            && (!b.AttemptStarted? ==> l'.attemptCount == l.attemptCount)
            && (l.settled ==> b.RunSettled?)
            && (b.RunSettled? ==> l'.settled && l'.terminal == Some(b.terminal))
            && (!b.RunSettled? ==> l'.settled == l.settled && l'.terminal == l.terminal)
            && (b.Suspended? ==> w'.suspended && w'.pause.reason == Some(b.reason))
            && (b.Resumed? ==> w.suspended && !w'.suspended)
            && (!b.Suspended? && !b.Resumed? ==> w'.suspended == w.suspended && w'.pause.reason == w.pause.reason)
  {
  }

  /** Where a Run stands, and the state last announced for it. */
  ghost predicate Standing(l: Life, w: Reducer.Waiting, log: seq<Record>, table: SuspendStates) {
    && (l.admitted <==> log != [])
    && (l.attemptCount > 0 <==> HasAttempt(log))
    && (w.suspended <==> Waits(log))
    && (w.suspended ==> w.pause.reason.Some?)
    && (l.settled <==> l.terminal.Some?)
    && (log != [] ==>
          Announced(log, table)
          == Some(if l.terminal.Some? then TerminalTaskState(l.terminal.value)
                  else if w.suspended then table(w.pause.reason.value)
                  else if l.attemptCount == 0 then Submitted else Working))
  }

  lemma {:induction false} StandingAlways(runId: RunId, scope: Scope, log: seq<Record>, table: SuspendStates)
    requires Accepts(Fresh(runId, scope), log) && Orderly(log)
    ensures var s := After(Fresh(runId, scope), log).state; Standing(s.life, s.waiting, log, table)
  {
    if log != [] {
      var start := Fresh(runId, scope);
      RunSnoc(start, log);
      StandingAlways(runId, scope, Init(log), table);
      StandingEffect(After(start, Init(log)), Last(log));
      var s, s' := After(start, Init(log)).state, After(start, log).state;
      StandingNext(s.life, s'.life, s.waiting, s'.waiting, log, table);
    }
  }

  lemma StandingNext(
      l: Life, l': Life, w: Reducer.Waiting, w': Reducer.Waiting, log: seq<Record>, table: SuspendStates)
    requires log != [] && Orderly(log) && Standing(l, w, Init(log), table)
    requires var b := Last(log).body;
             && (b.RunAdmitted? ==> !l.admitted)
             && (l'.admitted <==> l.admitted || b.RunAdmitted?)
             && (b.AttemptStarted? ==> l.admitted && l'.attemptCount == l.attemptCount + 1)
             && (!b.AttemptStarted? ==> l'.attemptCount == l.attemptCount)
             && (l.settled ==> b.RunSettled?)
             && (b.RunSettled? ==> l'.settled && l'.terminal == Some(b.terminal))
             && (!b.RunSettled? ==> l'.settled == l.settled && l'.terminal == l.terminal)
             && (b.Suspended? ==> w'.suspended && w'.pause.reason == Some(b.reason))
             && (b.Resumed? ==> w.suspended && !w'.suspended)
             && (!b.Suspended? && !b.Resumed? ==> w'.suspended == w.suspended && w'.pause.reason == w.pause.reason)
    ensures Standing(l', w', log, table)
  {
    var b := Last(log).body;
    if b.Resumed? {
      WaitsAfterAttempt(Init(log));
    }
  }

  /** In an orderly log a suspension comes after an attempt. */
  lemma {:induction false} WaitsAfterAttempt(log: seq<Record>)
    requires Orderly(log) && Waits(log)
    ensures HasAttempt(log)
  {
    if !Last(log).body.Suspended? {
      WaitsAfterAttempt(Init(log));
    }
  }

  /** The Run was asked to stop and has not: the snapshot already says it is working, and the
      stream still says what it said before. */
  predicate StoppingUnheard(s: State, table: SuspendStates) {
    && s.life.terminal.None? && s.queues.abortSeq.Some?
    && (if s.waiting.suspended then s.waiting.pause.reason.Some? && table(s.waiting.pause.reason.value) != Working
        else s.life.attemptCount == 0)
  }

  /** Over an orderly accepted log the last state streamed is the snapshot's, except exactly for
      an unsettled abort of a Run that is queued, or is waiting in a state shown as anything but
      working. */
  lemma SnapshotAgrees(runId: RunId, scope: Scope, log: seq<Record>, answer: Option<string>, table: SuspendStates)
    requires log != [] && Accepts(Fresh(runId, scope), log) && Orderly(log)
    ensures var s := After(Fresh(runId, scope), log).state;
            LastState(Streamed(log, answer, table)) == Some(TaskStateOf(s, table)) <==> !StoppingUnheard(s, table)
  {
    StreamEndsAsAnnounced(log, answer, table);
    StandingAlways(runId, scope, log, table);
  }

  // -------------------------------------------------- what a peer is told

  /** What each ending is told as. */
  predicate ToldAs(t: TerminalState, state: TaskState) {
    && (t == Completed ==> state == Done)
    && (t == Failed || t == Abandoned || t == ForceSettled ==> state == Failing)
    && (t == TerminalState.Aborted ==> state == Canceled)
  }

  /** Where a Run stands, by its log. */
  ghost predicate StandsAt(s: State, log: seq<Record>) {
    var ended, waits := Latest(log, Settlements), Latest(log, Suspensions);
    && (s.life.settled <==> ended >= 0)
    && s.life.terminal == (if ended >= 0 then Some(log[ended].body.terminal) else None)
    && (s.waiting.suspended <==> waits > Latest(log, Resumes))
    && (s.waiting.suspended ==> s.waiting.pause.reason == Some(log[waits].body.reason))
    && (s.life.attemptCount > 0 <==> Latest(log, Attempts) >= 0)
    && (s.queues.abortSeq.Some? <==> Latest(log, Aborts) >= 0)
  }

  lemma {:induction false} StandsByLog(runId: RunId, scope: Scope, log: seq<Record>)
    requires Accepts(Fresh(runId, scope), log)
    ensures StandsAt(After(Fresh(runId, scope), log).state, log)
  {
    History.StateMeans(runId, scope, log);
    LifeStands(After(Fresh(runId, scope), log).state.life, log);
    SomeWhere(log, Aborts);
  }

  lemma {:induction false} LifeStands(l: Life, log: seq<Record>)
    requires History.LifeMeans(l, log)
    ensures l.settled <==> Latest(log, Settlements) >= 0
    ensures l.terminal == if l.settled then Some(log[Latest(log, Settlements)].body.terminal) else None
    ensures l.attemptCount > 0 <==> Latest(log, Attempts) >= 0
  {
    SomeWhere(log, Attempts);
  }

  /** What was last announced, by where the Run stands. */
  lemma {:induction false} ToldLast(
      runId: RunId, scope: Scope, log: seq<Record>, answer: Option<string>, table: SuspendStates)
    requires log != [] && Accepts(Fresh(runId, scope), log) && Orderly(log)
    ensures ToldBy(After(Fresh(runId, scope), log).state, table, LastState(Streamed(log, answer, table)))
  {
    StandingAlways(runId, scope, log, table);
    StreamEndsAsAnnounced(log, answer, table);
  }

  /** A Run that has ended is told, by stream and snapshot alike, as its last settlement says. */
  lemma {:induction false} EndingTold(
      runId: RunId, scope: Scope, log: seq<Record>, answer: Option<string>, table: SuspendStates)
    requires Accepts(Fresh(runId, scope), log) && Orderly(log) && Latest(log, Settlements) >= 0
    ensures var s, t := After(Fresh(runId, scope), log).state, log[Latest(log, Settlements)].body.terminal;
            && LastState(Streamed(log, answer, table)).Some? && ToldAs(t, LastState(Streamed(log, answer, table)).value)
            && ToldAs(t, TaskStateOf(s, table))
  {
    StandsByLog(runId, scope, log);
    ToldLast(runId, scope, log, answer, table);
    EndingIsTold(log[Latest(log, Settlements)].body.terminal);
  }

  lemma EndingIsTold(t: TerminalState)
    ensures ToldAs(t, TerminalTaskState(t))
  {
  }

  /** What a wait is told as by default. */
  predicate WaitToldAs(reason: SuspendReason, state: TaskState) {
    && (reason == Approval || reason == Question || reason == Breakpoint ==> state == InputRequired)
    && (reason == External ==> state == AuthRequired)
    && (reason == Timer || reason == Children ==> state == Working)
  }

  /** A Run that waits is told as what it waits for says; the snapshot of one that was asked to
      stop already says working. */
  lemma {:induction false} WaitTold(runId: RunId, scope: Scope, log: seq<Record>, answer: Option<string>)
    requires Accepts(Fresh(runId, scope), log) && Orderly(log)
    requires Latest(log, Settlements) < 0 && Latest(log, Suspensions) > Latest(log, Resumes)
    ensures var s, reason := After(Fresh(runId, scope), log).state, log[Latest(log, Suspensions)].body.reason;
            var told := LastState(Streamed(log, answer, DefaultSuspendState));
            && told.Some? && WaitToldAs(reason, told.value)
            && (if Latest(log, Aborts) < 0 then WaitToldAs(reason, TaskStateOf(s, DefaultSuspendState))
                else TaskStateOf(s, DefaultSuspendState) == Working)
  {
    StandsByLog(runId, scope, log);
    ToldLast(runId, scope, log, answer, DefaultSuspendState);
    WaitToldBy(After(Fresh(runId, scope), log).state, log, LastState(Streamed(log, answer, DefaultSuspendState)));
  }

  /** The state last told, by where the Run stands. */
  predicate ToldBy(s: State, table: SuspendStates, told: Option<TaskState>) {
    && (s.waiting.suspended ==> s.waiting.pause.reason.Some?)
    && told == Some(if s.life.terminal.Some? then TerminalTaskState(s.life.terminal.value)
                    else if s.waiting.suspended then table(s.waiting.pause.reason.value)
                    else if s.life.attemptCount == 0 then Submitted else Working)
  }

  lemma {:induction false} WaitToldBy(s: State, log: seq<Record>, told: Option<TaskState>)
    requires StandsAt(s, log) && ToldBy(s, DefaultSuspendState, told)
    requires Latest(log, Settlements) < 0 && Latest(log, Suspensions) > Latest(log, Resumes)
    ensures var reason := log[Latest(log, Suspensions)].body.reason;
            && told.Some? && WaitToldAs(reason, told.value)
            && (if Latest(log, Aborts) < 0 then WaitToldAs(reason, TaskStateOf(s, DefaultSuspendState))
                else TaskStateOf(s, DefaultSuspendState) == Working)
  {
    WaitIsTold(log[Latest(log, Suspensions)].body.reason);
    SnapshotOfWait(s, log[Latest(log, Suspensions)].body.reason);
  }

  lemma {:induction false} SnapshotOfWait(s: State, reason: SuspendReason)
    requires !s.life.settled && s.life.terminal.None? && s.waiting.suspended && s.waiting.pause.reason == Some(reason)
    ensures TaskStateOf(s, DefaultSuspendState)
            == if s.queues.abortSeq.Some? then Working else DefaultSuspendState(reason)
  {
  }

  lemma WaitIsTold(reason: SuspendReason)
    ensures WaitToldAs(reason, DefaultSuspendState(reason))
  {
  }

  /** Any other Run is told as working once it has had an attempt, and as submitted before; the
      snapshot of one that was asked to stop already says working. */
  lemma {:induction false} WorkTold(
      runId: RunId, scope: Scope, log: seq<Record>, answer: Option<string>, table: SuspendStates)
    requires log != [] && Accepts(Fresh(runId, scope), log) && Orderly(log)
    requires Latest(log, Settlements) < 0 && Latest(log, Suspensions) <= Latest(log, Resumes)
    ensures var s, tried := After(Fresh(runId, scope), log).state, Latest(log, Attempts) >= 0;
            && LastState(Streamed(log, answer, table)) == Some(if tried then Working else Submitted)
            && TaskStateOf(s, table) == if tried || Latest(log, Aborts) >= 0 then Working else Submitted
  {
    StandsByLog(runId, scope, log);
    ToldLast(runId, scope, log, answer, table);
    WorkToldBy(After(Fresh(runId, scope), log).state, log, LastState(Streamed(log, answer, table)), table);
  }

  lemma {:induction false} WorkToldBy(s: State, log: seq<Record>, told: Option<TaskState>, table: SuspendStates)
    requires StandsAt(s, log) && ToldBy(s, table, told)
    requires Latest(log, Settlements) < 0 && Latest(log, Suspensions) <= Latest(log, Resumes)
    ensures var tried := Latest(log, Attempts) >= 0;
            && told == Some(if tried then Working else Submitted)
            && TaskStateOf(s, table) == if tried || Latest(log, Aborts) >= 0 then Working else Submitted
  {
  }

  /** Whether a record speaks of how the Run stands, and what it says. */
  predicate Speaks(b: Body, table: SuspendStates, state: TaskState, message: Option<string>) {
    || (b.RunAdmitted? && state == Submitted && message == None)
    || ((b.AttemptStarted? || b.Resumed?) && state == Working && message == None)
    || (b.Suspended? && state == table(b.reason)
        && message == (if b.question == None || b.question == Some("") then None else b.question))
    || (b.RunSettled? && ToldAs(b.terminal, state)
        && message == (if b.failure == None then None else Some(b.failure.value.message)))
  }

  /** The events of one record, given the state last told: the answer before an ending, then what
      the record says, unless that is the state already told and nothing is said with it. */
  predicate EventsFit(r: Record, told: Option<TaskState>, answer: Option<string>, table: SuspendStates,
                      events: seq<StreamEvent>, now: Option<TaskState>)
  {
    var artifacts := if r.body.RunSettled? && answer != None then [ArtifactUpdate(r.runId, answer.value)] else [];
    if now == None || !(r.body.RunAdmitted? || r.body.AttemptStarted? || r.body.Resumed? || r.body.Suspended?
                        || r.body.RunSettled?)
    then events == artifacts && now == told
    else if now == told && Speaks(r.body, table, now.value, None) then events == artifacts
    else
      && events != [] && Init(events) == artifacts && Last(events).StatusUpdate?
      && Last(events).taskId == r.runId && Last(events).at == r.at && Last(events).state == now.value
      && Speaks(r.body, table, now.value, Last(events).message)
  }

  /** So the stream is one record's events after another's. */
  lemma {:induction false} StreamedOneByOne(log: seq<Record>, answer: Option<string>, table: SuspendStates)
    requires log != []
    ensures var before, all := Streamed(Init(log), answer, table), Streamed(log, answer, table);
            && |before| <= |all| && all[..|before|] == before
            && EventsFit(Last(log), Announced(Init(log), table), answer, table, all[|before|..], Announced(log, table))
  {
    var before, r, told := Streamed(Init(log), answer, table), Last(log), Announced(Init(log), table);
    var artifacts, statuses := Artifacts(r, answer), Statuses(r, told, table);
    assert Streamed(log, answer, table) == before + artifacts + statuses;
    assert Streamed(log, answer, table)[|before|..] == artifacts + statuses;
    OneRecord(r, told, answer, table);
  }

  lemma AnnouncedSpeaks(b: Body, table: SuspendStates)
    ensures Announces(b, table).Some? <==>
              b.RunAdmitted? || b.AttemptStarted? || b.Resumed? || b.Suspended? || b.RunSettled?
    ensures Announces(b, table).Some? ==> Speaks(b, table, Announces(b, table).value, Saying(b))
  {
    if b.RunSettled? {
      EndingIsTold(b.terminal);
    }
  }

  /** A record says nothing beside its state exactly when it has nothing to say. */
  lemma SpeaksOnce(b: Body, table: SuspendStates)
    requires Announces(b, table).Some?
    ensures Speaks(b, table, Announces(b, table).value, None) <==> Saying(b).None?
  {
    AnnouncedSpeaks(b, table);
  }

  lemma {:induction false} QuietRecord(r: Record, told: Option<TaskState>, answer: Option<string>, table: SuspendStates)
    requires Statuses(r, told, table) == []
    ensures var a := Announces(r.body, table);
            EventsFit(r, told, answer, table, Artifacts(r, answer), if a.Some? then a else told)
  {
    AnnouncedSpeaks(r.body, table);
    if Announces(r.body, table).Some? {
      SpeaksOnce(r.body, table);
    }
  }

  lemma {:induction false} LoudRecord(
      r: Record, told: Option<TaskState>, answer: Option<string>, table: SuspendStates, e: StreamEvent)
    requires Statuses(r, told, table) == [e]
    ensures EventsFit(r, told, answer, table, Artifacts(r, answer) + [e], Announces(r.body, table))
  {
    AnnouncedSpeaks(r.body, table);
    SpeaksOnce(r.body, table);
    OneMore(Artifacts(r, answer), e);
  }

  lemma {:induction false} OneRecord(r: Record, told: Option<TaskState>, answer: Option<string>, table: SuspendStates)
    ensures var a := Announces(r.body, table);
            EventsFit(r, told, answer, table, Artifacts(r, answer) + Statuses(r, told, table),
                      if a.Some? then a else told)
  {
    var artifacts, statuses := Artifacts(r, answer), Statuses(r, told, table);
    if statuses == [] {
      assert artifacts + statuses == artifacts;
      QuietRecord(r, told, answer, table);
    } else {
      LoudRecord(r, told, answer, table, statuses[0]);
    }
  }

  lemma {:induction false} OneMore(events: seq<StreamEvent>, e: StreamEvent)
    ensures events + [e] != [] && Init(events + [e]) == events && Last(events + [e]) == e
  {
  }
}
