/** Step memoisation: a settled step is final, attempts count up from one, and the workflow's
    state is the merge of what its `set_state` steps put out. */
module StepHistory {
  import opened Values
  import opened Records
  import opened Reducer

  /** What an accepted record does to the steps. */
  lemma StepsEffect(f: Fold, r: Record)
    requires Step(f, r).Accepted?
    ensures var s, s', b := f.state.steps, Step(f, r).value.state.steps, r.body;
            && (b.StepStarted? ==>
                  && (b.stepId in s.steps ==> !s.steps[b.stepId].Settled())
                  && (b.stepId in s.steps ==> b.attemptNumber == s.steps[b.stepId].attemptNumber + 1)
                  && (b.stepId !in s.steps ==> b.attemptNumber == 1)
                  && s'.steps.Keys == s.steps.Keys + {b.stepId}
                  && s'.steps == s.steps[b.stepId := s'.steps[b.stepId]]
                  && s'.steps[b.stepId].attemptNumber == b.attemptNumber
                  && s'.steps[b.stepId].kind == b.kind && !s'.steps[b.stepId].completed
                  && s'.starts == s.starts + 1 && s'.updates == s.updates)
            && (b.StepCompleted? ==>
                  && b.stepId in s.steps && !s.steps[b.stepId].completed
                  && s'.steps.Keys == s.steps.Keys
                  && s'.steps == s.steps[b.stepId := s'.steps[b.stepId]]
                  && s'.steps[b.stepId].attemptNumber == s.steps[b.stepId].attemptNumber
                  && s'.steps[b.stepId].kind == s.steps[b.stepId].kind
                  && s'.steps[b.stepId].completed && s'.steps[b.stepId].willRetry == b.willRetry
                  && s'.starts == s.starts
                  && s'.updates == if Contributes(s.steps[b.stepId].kind, b)
                                   then s.updates + b.output.value else s.updates)
            && (!b.StepStarted? && !b.StepCompleted? ==> s' == s)
  {
  }

  /** A completion whose output joins the workflow's state. */
  predicate Contributes(kind: string, b: Body) {
    b.StepCompleted? && kind == SET_STATE && b.output.Some? && b.failure.None? && !b.skipped
  }

  /** Once a step is settled its record is the same in every accepted extension of the log. */
  lemma {:induction false} SettledForever(f: Fold, log: seq<Record>, id: StepId)
    requires Accepts(f, log) && id in f.state.steps.steps && f.state.steps.steps[id].Settled()
    ensures id in After(f, log).state.steps.steps
    ensures After(f, log).state.steps.steps[id] == f.state.steps.steps[id]
  {
    if log != [] {
      RunSnoc(f, log);
      SettledForever(f, Init(log), id);
      StepsEffect(After(f, Init(log)), Last(log));
    }
  }

  // ---------------------------------------------------------------- attempts

  /** The attempt numbers a step was started with, oldest first. */
  function Attempts(log: seq<Record>, id: StepId): seq<nat> {
    if log == [] then []
    else
      var b := Last(log).body;
      if b.StepStarted? && b.stepId == id then Attempts(Init(log), id) + [b.attemptNumber]
      else Attempts(Init(log), id)
  }

  /** Each step's attempts are numbered 1, 2, 3 and so on, and its record is on the last of them. */
  lemma {:induction false} AttemptsCountUp(runId: RunId, scope: Scope, log: seq<Record>, id: StepId)
    requires Accepts(Fresh(runId, scope), log)
    ensures forall i :: 0 <= i < |Attempts(log, id)| ==> Attempts(log, id)[i] == i + 1
    ensures var steps := After(Fresh(runId, scope), log).state.steps.steps;
            && (id in steps <==> Attempts(log, id) != [])
            && (id in steps ==> steps[id].attemptNumber == |Attempts(log, id)|)
  {
    if log != [] {
      RunSnoc(Fresh(runId, scope), log);
      AttemptsCountUp(runId, scope, Init(log), id);
      StepsEffect(After(Fresh(runId, scope), Init(log)), Last(log));
    }
  }

  /** The steps of a log in the order they were first started. */
  function StepIds(log: seq<Record>): seq<StepId> {
    if log == [] then []
    else
      var b, earlier := Last(log).body, StepIds(Init(log));
      if b.StepStarted? && b.stepId !in earlier then earlier + [b.stepId] else earlier
  }

  function SumAttempts(steps: map<StepId, StepRecord>, ids: seq<StepId>): nat {
    if ids == [] then 0
    else SumAttempts(steps, Init(ids)) + (if Last(ids) in steps then steps[Last(ids)].attemptNumber else 0)
  }

  predicate Distinct(ids: seq<StepId>) {
    forall i, j :: 0 <= i < j < |ids| ==> ids[i] != ids[j]
  }

  lemma {:induction false} SumUnread(s: map<StepId, StepRecord>, t: map<StepId, StepRecord>, ids: seq<StepId>)
    requires forall i :: 0 <= i < |ids| ==>
               ids[i] in s && ids[i] in t && s[ids[i]].attemptNumber == t[ids[i]].attemptNumber
    ensures SumAttempts(s, ids) == SumAttempts(t, ids)
  {
    if ids != [] {
      assert forall i :: 0 <= i < |Init(ids)| ==> Init(ids)[i] == ids[i];
      SumUnread(s, t, Init(ids));
      assert Last(ids) == ids[|ids| - 1];
    }
  }

  lemma {:induction false} SumBumped(
      s: map<StepId, StepRecord>, t: map<StepId, StepRecord>, ids: seq<StepId>, id: StepId)
    requires Distinct(ids) && id in ids && id in s && id in t && t[id].attemptNumber == s[id].attemptNumber + 1
    requires forall i :: 0 <= i < |ids| && ids[i] != id ==>
               ids[i] in s && ids[i] in t && s[ids[i]].attemptNumber == t[ids[i]].attemptNumber
    ensures SumAttempts(t, ids) == SumAttempts(s, ids) + 1
  {
    var init := Init(ids);
    assert forall i :: 0 <= i < |init| ==> init[i] == ids[i];
    assert ids == init + [Last(ids)];
    if Last(ids) == id {
      SumUnread(s, t, init);
    } else {
      SumBumped(s, t, init, id);
    }
  }

  /** `step_starts` counts every start, and is the sum of the steps' attempt numbers. */
  lemma {:induction false} StartsAddUp(runId: RunId, scope: Scope, log: seq<Record>)
    requires Accepts(Fresh(runId, scope), log)
    ensures AddsUp(After(Fresh(runId, scope), log).state.steps, StepIds(log))
  {
    if log != [] {
      var start := Fresh(runId, scope);
      RunSnoc(start, log);
      StartsAddUp(runId, scope, Init(log));
      StepsEffect(After(start, Init(log)), Last(log));
      StartsStep(After(start, Init(log)).state.steps, After(start, log).state.steps, log);
    }
  }

  /** Some distinct ids are the steps there are, and the starts are the sum of their attempts. */
  ghost predicate AddsUp(s: Steps, ids: seq<StepId>) {
    && Distinct(ids)
    && (forall id :: id in s.steps <==> id in ids)
    && s.starts == SumAttempts(s.steps, ids)
  }

  lemma StartsStep(s: Steps, s': Steps, log: seq<Record>)
    requires log != [] && AddsUp(s, StepIds(Init(log)))
    requires Last(log).body.StepStarted? ==>
               var b := Last(log).body;
               && s'.steps.Keys == s.steps.Keys + {b.stepId}
               && s'.steps == s.steps[b.stepId := s'.steps[b.stepId]]
               && s'.steps[b.stepId].attemptNumber
                  == (if b.stepId in s.steps then s.steps[b.stepId].attemptNumber + 1 else 1)
               && s'.starts == s.starts + 1
    requires !Last(log).body.StepStarted? ==>
               && s'.steps.Keys == s.steps.Keys && s'.starts == s.starts
               && forall id :: id in s.steps ==> s'.steps[id].attemptNumber == s.steps[id].attemptNumber
    ensures AddsUp(s', StepIds(log))
  {
    var ids, b := StepIds(Init(log)), Last(log).body;
    if b.StepStarted? && b.stepId in ids {
      StartedAgain(s, s', ids, b.stepId);
    } else if b.StepStarted? {
      StartedFirst(s, s', ids, b.stepId);
    } else {
      SumUnread(s.steps, s'.steps, ids);
    }
  }

  lemma StartedAgain(s: Steps, s': Steps, ids: seq<StepId>, id: StepId)
    requires AddsUp(s, ids) && id in s.steps && id in s'.steps && s'.steps == s.steps[id := s'.steps[id]]
    requires s'.steps[id].attemptNumber == s.steps[id].attemptNumber + 1 && s'.starts == s.starts + 1
    ensures AddsUp(s', ids)
  {
    assert forall i :: 0 <= i < |ids| ==> ids[i] in ids;
    SumBumped(s.steps, s'.steps, ids, id);
  }

  lemma StartedFirst(s: Steps, s': Steps, ids: seq<StepId>, id: StepId)
    requires AddsUp(s, ids) && id !in s.steps && id in s'.steps && s'.steps == s.steps[id := s'.steps[id]]
    requires s'.steps[id].attemptNumber == 1 && s'.starts == s.starts + 1
    ensures AddsUp(s', ids + [id])
  {
    assert forall i :: 0 <= i < |ids| ==> ids[i] in ids;
    SumUnread(s.steps, s'.steps, ids);
    OneMoreStep(s'.steps, ids, id);
  }

  lemma OneMoreStep(steps: map<StepId, StepRecord>, ids: seq<StepId>, id: StepId)
    requires Distinct(ids) && id !in ids && id in steps
    ensures Distinct(ids + [id])
    ensures forall other :: other in ids + [id] <==> other in ids || other == id
    ensures SumAttempts(steps, ids + [id]) == SumAttempts(steps, ids) + steps[id].attemptNumber
  {
    assert Init(ids + [id]) == ids && Last(ids + [id]) == id;
  }

  // ------------------------------------------------------- the workflow's state

  /** The kind a step was last started as. */
  function KindOf(log: seq<Record>, id: StepId): Option<string> {
    if log == [] then None
    else if Last(log).body.StepStarted? && Last(log).body.stepId == id then Some(Last(log).body.kind)
    else KindOf(Init(log), id)
  }

  predicate SetsState(log: seq<Record>, b: Body) {
    b.StepCompleted? && KindOf(log, b.stepId).Some? && Contributes(KindOf(log, b.stepId).value, b)
  }

  /** The completions that set state: which step, and what it put out, oldest first. */
  function Contributions(log: seq<Record>): seq<(StepId, Dict)> {
    if log == [] then []
    else
      var b, earlier := Last(log).body, Contributions(Init(log));
      if SetsState(Init(log), b) then earlier + [(b.stepId, b.output.value)] else earlier
  }

  /** Later values under the same name win. */
  function Merged(parts: seq<(StepId, Dict)>): Dict {
    if parts == [] then map[] else Merged(Init(parts)) + Last(parts).1
  }

  lemma {:induction false} KindsKnown(runId: RunId, scope: Scope, log: seq<Record>)
    requires Accepts(Fresh(runId, scope), log)
    ensures var steps := After(Fresh(runId, scope), log).state.steps.steps;
            forall id :: && (id in steps <==> KindOf(log, id).Some?)
                         && (id in steps ==> KindOf(log, id) == Some(steps[id].kind))
  {
    if log != [] {
      RunSnoc(Fresh(runId, scope), log);
      KindsKnown(runId, scope, Init(log));
      StepsEffect(After(Fresh(runId, scope), Init(log)), Last(log));
    }
  }

  /** The contributing steps are settled, and each is there once. */
  ghost predicate ContributedOnce(steps: map<StepId, StepRecord>, parts: seq<(StepId, Dict)>) {
    && (forall i :: 0 <= i < |parts| ==> parts[i].0 in steps && steps[parts[i].0].Settled())
    && forall i, j :: 0 <= i < j < |parts| ==> parts[i].0 != parts[j].0
  }

  /** The workflow state is the in-order merge of the successful `set_state` outputs, and no step
      contributes twice. */
  lemma {:induction false} StateIsMerged(runId: RunId, scope: Scope, log: seq<Record>)
    requires Accepts(Fresh(runId, scope), log) && ValidLog(log)
    ensures var s := After(Fresh(runId, scope), log).state.steps;
            s.updates == Merged(Contributions(log)) && ContributedOnce(s.steps, Contributions(log))
  {
    if log != [] {
      var start := Fresh(runId, scope);
      RunSnoc(start, log);
      assert forall i :: 0 <= i < |Init(log)| ==> Init(log)[i] == log[i];
      StateIsMerged(runId, scope, Init(log));
      KindsKnown(runId, scope, Init(log));
      StepsEffect(After(start, Init(log)), Last(log));
      MergeStep(After(start, Init(log)).state.steps, After(start, log).state.steps, log);
    }
  }

  lemma MergeStep(s: Steps, s': Steps, log: seq<Record>)
    requires log != [] && ValidBody(Last(log).body)
    requires s.updates == Merged(Contributions(Init(log))) && ContributedOnce(s.steps, Contributions(Init(log)))
    requires forall id :: && (id in s.steps <==> KindOf(Init(log), id).Some?)
                          && (id in s.steps ==> KindOf(Init(log), id) == Some(s.steps[id].kind))
    requires Last(log).body.StepStarted? ==>
               var id := Last(log).body.stepId;
               && (id in s.steps ==> !s.steps[id].Settled())
               && s'.steps.Keys == s.steps.Keys + {id} && s'.steps == s.steps[id := s'.steps[id]]
               && s'.updates == s.updates
    requires Last(log).body.StepCompleted? ==>
               var b := Last(log).body;
               && b.stepId in s.steps && !s.steps[b.stepId].completed
               && s'.steps.Keys == s.steps.Keys && s'.steps == s.steps[b.stepId := s'.steps[b.stepId]]
               && s'.steps[b.stepId].completed && s'.steps[b.stepId].willRetry == b.willRetry
               && s'.updates == if Contributes(s.steps[b.stepId].kind, b) then s.updates + b.output.value else s.updates
    requires !Last(log).body.StepStarted? && !Last(log).body.StepCompleted? ==> s' == s
    ensures s'.updates == Merged(Contributions(log)) && ContributedOnce(s'.steps, Contributions(log))
  {
    var b, parts := Last(log).body, Contributions(Init(log));
    if SetsState(Init(log), b) {
      var all := parts + [(b.stepId, b.output.value)];
      assert Init(all) == parts && Last(all) == (b.stepId, b.output.value);
      assert forall i :: 0 <= i < |parts| ==> all[i] == parts[i];
    }
  }
}
