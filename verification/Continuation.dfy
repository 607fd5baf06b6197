/** `reduce` over objects, and what continuing from a prior state does to that state.

    A continuation is meant to leave its prior alone, so that calling it twice gives one
    answer. It copies every collection but two: the tally cells and the approval
    decisions. The lemmas below say exactly when that shows. */
module Continuation {
  import opened Values
  import opened Records
  import opened Reducer
  import opened StateView
  import opened LogTerms

  ghost function SharedWith(prior: RunStateView?): set<object>
    reads prior
  {
    if prior == null then {}
    else (set c | c in prior.repeatCounts.Values :: c as object) + {prior.approvalDecisions}
  }

  ghost function Before(prior: RunStateView?): Option<State>
    reads prior, if prior == null then {} else prior.repeatCounts.Values
    reads if prior == null then {} else {prior.approvalDecisions}
  {
    if prior == null then None else Some(prior.View())
  }

  /** A prior state once `records` has been folded onto a continuation of it. */
  function PriorAfter(s: State, records: seq<Record>): State {
    s.(repeatCounts := ShadowAfter(StartFrom(s), records).tallies,
       approvals := ApprovalsAfter(StartFrom(s), records))
  }

  /** The loop over a fresh or a continued state, with its local variables set first. */
  method FoldOnto(state: RunStateView, records: seq<Record>) returns (outcome: Outcome<RunStateView>)
    requires state.Valid()
    modifies state, state.repeatCounts.Values, state.approvalDecisions
    ensures state.Valid()
    ensures match Run(StartFrom(old(state.View())), records)
            case Accepted(f) => outcome == Accepted(state) && state.View() == f.state
            case Refused(reason, seqNo) => outcome == Refused(reason, seqNo)
            case Misused => false
    ensures CellsShadowed(old(state.repeatCounts), state.repeatCounts,
                          ShadowAfter(StartFrom(old(state.View())), records))
    ensures state.approvalDecisions.made == ApprovalsAfter(StartFrom(old(state.View())), records)
  {
    var settled := set i | 0 <= i < |state.calls.results| :: state.calls.results[i].callId;
    var locals := Locals(state.calls.open.Keys + settled, settled, PendingById(state.queues), {}, {});
    var objection := state.FoldAll(locals, records);
    if objection.Some? {
      return Refused(objection.value.0, objection.value.1);
    }
    return Accepted(state);
  }

  /** Folding onto a copy that shares its cells and decisions with `prior`. */
  method FoldOntoCopy(state: RunStateView, records: seq<Record>, ghost prior: RunStateView)
    returns (outcome: Outcome<RunStateView>)
    requires state != prior && prior.Valid() && state.View() == prior.View()
    requires state.repeatCounts == prior.repeatCounts && state.approvalDecisions == prior.approvalDecisions
    modifies state, prior.repeatCounts.Values, prior.approvalDecisions
    ensures state.Valid()
    ensures match Run(StartFrom(old(prior.View())), records)
            case Accepted(f) => outcome == Accepted(state) && state.View() == f.state
            case Refused(reason, seqNo) => outcome == Refused(reason, seqNo)
            case Misused => false
    ensures prior.Tallies() == PriorAfter(old(prior.View()), records).repeatCounts
    ensures prior.approvalDecisions.made == PriorAfter(old(prior.View()), records).approvals
  {
    outcome := FoldOnto(state, records);
  }

  /** `reduce(records, prior=prior)`: the answer, and the prior as it is left. */
  method Continue(records: seq<Record>, prior: RunStateView) returns (outcome: Outcome<RunStateView>)
    requires prior.Valid()
    modifies prior.repeatCounts.Values, prior.approvalDecisions
    ensures match Run(StartFrom(old(prior.View())), records)
            case Accepted(f) => outcome.Accepted? && fresh(outcome.value) && outcome.value.Valid()
                                && outcome.value.View() == f.state
            case Refused(reason, seqNo) => outcome == Refused(reason, seqNo)
            case Misused => false
    ensures prior.View() == PriorAfter(old(prior.View()), records)
  {
    var state := new RunStateView.ContinueFrom(prior);
    outcome := FoldOntoCopy(state, records, prior);
  }

  /** `reduce(records, run_id=runId, prior=prior)`. */
  method ReduceLog(records: seq<Record>, runId: Option<RunId>, prior: RunStateView?)
    returns (outcome: Outcome<RunStateView>)
    requires prior != null ==> prior.Valid()
    modifies SharedWith(prior)
    ensures match Reduce(records, runId, old(Before(prior)))
            case Accepted(s) => outcome.Accepted? && fresh(outcome.value) && outcome.value.Valid()
                                && outcome.value.View() == s
            case Refused(reason, seqNo) => outcome == Refused(reason, seqNo)
            case Misused => outcome == Misused
    ensures prior != null ==>
              prior.View() == if outcome.Misused? then old(prior.View())
                              else PriorAfter(old(prior.View()), records)
  {
    if prior != null {
      if runId.Some? && runId.value != prior.runId {
        return Misused;
      }
      outcome := Continue(records, prior);
    } else {
      if records == [] {
        return Misused;
      }
      var id := if runId.Some? then runId.value else records[0].runId;
      var state := new RunStateView(id, records[0].scope);
      outcome := FoldOnto(state, records);
    }
  }

  // ----------------------------------------- when the sharing can be seen

  /** The counted (call, answer) pairs of as much of `log` as is accepted, oldest first. */
  function Answers(f: Fold, log: seq<Record>): seq<(Digest, Digest)> {
    if log == [] then []
    else if Accepts(f, log) then Answers(f, Init(log)) + AsSeq(CountedAt(f, log))
    else Answers(f, Init(log))
  }

  function CountedAt(f: Fold, log: seq<Record>): Option<(Digest, Digest)>
    requires log != [] && Accepts(f, log)
  {
    Counted(After(f, Init(log)).state.calls.open, Last(log).body)
  }

  function AsSeq<T>(o: Option<T>): seq<T> {
    if o.Some? then [o.value] else []
  }

  /** The answers one call got, oldest first. */
  function AnswersTo(pairs: seq<(Digest, Digest)>, key: Digest): seq<Digest> {
    if pairs == [] then []
    else AnswersTo(Init(pairs), key) + (if Last(pairs).0 == key then [Last(pairs).1] else [])
  }

  predicate AllAre(answers: seq<Digest>, d: Digest) {
    forall i :: 0 <= i < |answers| ==> answers[i] == d
  }

  /** How many of the first answers are `d`, before one that is not. */
  function Leading(answers: seq<Digest>, d: Digest): nat {
    if answers == [] then 0 else Leading(Init(answers), d) + (if AllAre(answers, d) then 1 else 0)
  }

  /** The call waiting for a decision after a log, `first` being the one that waited before it. */
  function PendingAfter(first: Option<CallId>, log: seq<Record>): Option<CallId> {
    var s, r := Latest(log, Suspensions), Latest(log, Resumes);
    if s > r then log[s].body.pendingCallId else if r >= 0 then None else first
  }

  /** The decision the record at `i` makes: of a resume, on the call its suspension waits for. */
  function DecisionAt(first: Option<CallId>, log: seq<Record>, i: nat): Option<(CallId, bool)>
    requires i < |log|
  {
    var b, call := log[i].body, PendingAfter(first, log[..i]);
    if b.Resumed? && b.approved.Some? && call.Some? then Some((call.value, b.approved.value)) else None
  }

  /** Every decision a log makes, the latest one a call. */
  function Decisions(first: Option<CallId>, log: seq<Record>): map<CallId, bool> {
    if log == [] then map[]
    else
      var earlier, d := Decisions(first, Init(log)), DecisionAt(first, log, |log| - 1);
      if d.Some? then earlier[d.value.0 := d.value.1] else earlier
  }

  predicate DecidesAt(first: Option<CallId>, log: seq<Record>, i: nat, id: CallId)
    requires i < |log|
  {
    var d := DecisionAt(first, log, i);
    d.Some? && d.value.0 == id
  }

  /** Whether that is the last decision on the call, and what it is. */
  ghost predicate DecidesLast(first: Option<CallId>, log: seq<Record>, i: nat, id: CallId, decision: bool)
    requires i < |log|
  {
    && DecidesAt(first, log, i, id)
    && log[i].body.Resumed? && log[i].body.approved == Some(decision)
    && forall j :: i < j < |log| ==> !DecidesAt(first, log, j, id)
  }

  lemma {:induction false} DecidesEarlier(first: Option<CallId>, log: seq<Record>, i: nat, id: CallId)
    requires i < |log| - 1
    ensures DecidesAt(first, Init(log), i, id) == DecidesAt(first, log, i, id)
    ensures Init(log)[i] == log[i]
  {
    assert Init(log)[..i] == log[..i];
  }

  lemma {:induction false} StillLast(first: Option<CallId>, log: seq<Record>, i: nat, id: CallId, decision: bool)
    requires i < |log| - 1 && DecidesLast(first, Init(log), i, id, decision) && !DecidesAt(first, log, |log| - 1, id)
    ensures DecidesLast(first, log, i, id, decision)
  {
    DecidesEarlier(first, log, i, id);
    forall j | i < j < |log| ensures !DecidesAt(first, log, j, id) {
      if j < |log| - 1 {
        DecidesEarlier(first, log, j, id);
      }
    }
  }

  /** A call is decided exactly when some resume with a decision answers the suspension on it,
      and the decision is the last such resume's. */
  lemma {:induction false} DecisionsMean(first: Option<CallId>, log: seq<Record>, id: CallId)
    ensures id !in Decisions(first, log) ==> forall i :: 0 <= i < |log| ==> !DecidesAt(first, log, i, id)
    ensures id in Decisions(first, log) ==>
              exists i :: 0 <= i < |log| && DecidesLast(first, log, i, id, Decisions(first, log)[id])
  {
    if log != [] {
      var n := |log| - 1;
      DecisionsMean(first, Init(log), id);
      if DecidesAt(first, log, n, id) {
        assert DecidesLast(first, log, n, id, Decisions(first, log)[id]);
      } else if id in Decisions(first, log) {
        var i :| 0 <= i < n && DecidesLast(first, Init(log), i, id, Decisions(first, Init(log))[id]);
        StillLast(first, log, i, id, Decisions(first, log)[id]);
      } else {
        forall i | 0 <= i < n ensures !DecidesAt(first, log, i, id) {
          DecidesEarlier(first, log, i, id);
        }
      }
    }
  }

  /** As much of a log as is accepted. */
  function AcceptedPart(f: Fold, log: seq<Record>): seq<Record> {
    if Accepts(f, log) || log == [] then log else AcceptedPart(f, Init(log))
  }

  /** The decisions of the accepted part of a log. */
  function Decided(f: Fold, log: seq<Record>): map<CallId, bool> {
    Decisions(f.state.waiting.pause.pendingCall, AcceptedPart(f, log))
  }

  /** The pause of the fold holds the call that the log leaves waiting. */
  lemma {:induction false} PendingIs(f: Fold, log: seq<Record>)
    requires Accepts(f, log)
    ensures After(f, log).state.waiting.pause.pendingCall == PendingAfter(f.state.waiting.pause.pendingCall, log)
  {
    if log != [] {
      RunSnoc(f, log);
      PendingIs(f, Init(log));
      PauseEffect(After(f, Init(log)), Last(log));
      PendingNext(f.state.waiting.pause.pendingCall, log);
    }
  }

  lemma {:induction false} PauseEffect(f: Fold, r: Record)
    requires Step(f, r).Accepted?
    ensures Step(f, r).value.state.waiting.pause.pendingCall
            == if r.body.Suspended? then r.body.pendingCallId
               else if r.body.Resumed? then None else f.state.waiting.pause.pendingCall
  {
  }

  lemma {:induction false} PendingNext(first: Option<CallId>, log: seq<Record>)
    requires log != []
    ensures PendingAfter(first, log)
            == if Last(log).body.Suspended? then Last(log).body.pendingCallId
               else if Last(log).body.Resumed? then None else PendingAfter(first, Init(log))
  {
    var s := Latest(Init(log), Suspensions);
    assert s >= 0 ==> Init(log)[s] == log[s];
  }

  lemma {:induction false} DecidedNext(f: Fold, log: seq<Record>)
    requires log != [] && Accepts(f, log)
    ensures Accepts(f, Init(log))
    ensures Decided(f, log)
            == ApprovalsStep(Decided(f, Init(log)), After(f, Init(log)).state.waiting.pause, Last(log).body)
  {
    RunSnoc(f, log);
    PendingIs(f, Init(log));
    assert log[..|log| - 1] == Init(log);
  }

  function RepeatsFold(counts: map<Digest, Tally>, pairs: seq<(Digest, Digest)>): map<Digest, Tally> {
    if pairs == [] then counts else RepeatStep(RepeatsFold(counts, Init(pairs)), Last(pairs).0, Last(pairs).1)
  }

  lemma AllAreSnoc(answers: seq<Digest>, a: Digest, d: Digest)
    ensures AllAre(answers + [a], d) <==> AllAre(answers, d) && a == d
    ensures Leading(answers + [a], d) == Leading(answers, d) + (if AllAre(answers, d) && a == d then 1 else 0)
  {
    assert Init(answers + [a]) == answers;
    assert (answers + [a])[|answers|] == a;
    assert forall i :: 0 <= i < |answers| ==> (answers + [a])[i] == answers[i];
  }

  lemma {:induction false} LeadingMeans(answers: seq<Digest>, d: Digest)
    ensures Leading(answers, d) <= |answers|
    ensures AllAre(answers, d) <==> Leading(answers, d) == |answers|
    ensures Leading(answers, d) > 0 <==> answers != [] && answers[0] == d
  {
    if answers != [] {
      LeadingMeans(Init(answers), d);
      AllAreSnoc(Init(answers), Last(answers), d);
      assert answers == Init(answers) + [Last(answers)];
    }
  }

  function ShadowFold(sh: Shadow, pairs: seq<(Digest, Digest)>): Shadow {
    if pairs == [] then sh else ShadowStep(ShadowFold(sh, Init(pairs)), Some(Last(pairs)))
  }

  lemma {:induction false} ShadowByAnswers(f: Fold, log: seq<Record>)
    ensures ShadowAfter(f, log)
            == ShadowFold(Shadow(f.state.repeatCounts, f.state.repeatCounts.Keys), Answers(f, log))
  {
    if log != [] {
      ShadowByAnswers(f, Init(log));
      if Accepts(f, log) {
        var earlier, counted := Answers(f, Init(log)), CountedAt(f, log);
        if counted.Some? {
          assert Init(earlier + [counted.value]) == earlier;
        } else {
          assert earlier + [] == earlier;
        }
      }
    }
  }

  lemma {:induction false} ShadowKeys(counts: map<Digest, Tally>, pairs: seq<(Digest, Digest)>)
    ensures ShadowFold(Shadow(counts, counts.Keys), pairs).tallies.Keys == counts.Keys
  {
    if pairs != [] {
      ShadowKeys(counts, Init(pairs));
    }
  }

  /** A prior cell has counted exactly the answers that came before the first changed one,
      and a continuation still counts in it exactly when no answer changed. */
  lemma {:induction false} ShadowIs(counts: map<Digest, Tally>, pairs: seq<(Digest, Digest)>, k: Digest)
    requires k in counts
    ensures k in ShadowFold(Shadow(counts, counts.Keys), pairs).tallies
    ensures var t, answers, sh := counts[k], AnswersTo(pairs, k), ShadowFold(Shadow(counts, counts.Keys), pairs);
            && sh.tallies[k] == Tally(t.resultDigest, t.count + Leading(answers, t.resultDigest))
            && (k in sh.shared <==> AllAre(answers, t.resultDigest))
  {
    if pairs != [] {
      ShadowIs(counts, Init(pairs), k);
      AnswersToNext(pairs, k);
      AllAreSnoc(AnswersTo(Init(pairs), k), Last(pairs).1, counts[k].resultDigest);
      ShadowNext(ShadowFold(Shadow(counts, counts.Keys), Init(pairs)), Last(pairs), k);
    }
  }

  lemma ShadowNext(sh: Shadow, pair: (Digest, Digest), k: Digest)
    requires k in sh.tallies
    ensures k in ShadowStep(sh, Some(pair)).tallies
    ensures var sh', same := ShadowStep(sh, Some(pair)), sh.tallies[k].resultDigest == pair.1;
            if pair.0 == k && k in sh.shared then
              && sh'.tallies[k] == (if same then Tally(pair.1, sh.tallies[k].count + 1) else sh.tallies[k])
              && (k in sh'.shared <==> same)
            else sh'.tallies[k] == sh.tallies[k] && (k in sh'.shared <==> k in sh.shared)
  {
  }

  lemma {:induction false} ApprovalsAre(f: Fold, log: seq<Record>)
    ensures ApprovalsAfter(f, log) == f.state.approvals + Decided(f, log)
  {
    if log != [] {
      ApprovalsAre(f, Init(log));
      if Accepts(f, log) {
        RunSnoc(f, log);
        AcceptedApprovals(f, Init(log));
        var pause := After(f, Init(log)).state.waiting.pause;
        DecidedNext(f, log);
        ApprovalsSnoc(f.state.approvals, Decided(f, Init(log)), pause, Last(log).body);
      }
    }
  }

  lemma ApprovalsSnoc(made: map<CallId, bool>, decided: map<CallId, bool>, p: Pause, b: Body)
    ensures ApprovalsStep(made + decided, p, b) == made + ApprovalsStep(decided, p, b)
  {
  }

  lemma AcceptedApprovals(f: Fold, log: seq<Record>)
    requires Accepts(f, log)
    ensures ApprovalsAfter(f, log) == After(f, log).state.approvals
  {
  }

  /** A tallied call of the prior whose first answer in the suffix is the one it last got. */
  predicate Bumps(s: State, pairs: seq<(Digest, Digest)>, k: Digest) {
    k in s.repeatCounts && AnswersTo(pairs, k) != [] && AnswersTo(pairs, k)[0] == s.repeatCounts[k].resultDigest
  }

  /** A decision of the suffix that the prior did not already hold. */
  predicate IsNews(s: State, decided: map<CallId, bool>, id: CallId) {
    id in decided && (id !in s.approvals || s.approvals[id] != decided[id])
  }

  lemma TalliesUntouched(s: State, log: seq<Record>)
    ensures PriorAfter(s, log).repeatCounts == s.repeatCounts
            <==> forall k :: k in s.repeatCounts ==> !Bumps(s, Answers(StartFrom(s), log), k)
  {
    var pairs := Answers(StartFrom(s), log);
    var tallies := ShadowAfter(StartFrom(s), log).tallies;
    ShadowByAnswers(StartFrom(s), log);
    ShadowKeys(s.repeatCounts, pairs);
    forall k | k in s.repeatCounts
      ensures tallies[k] == s.repeatCounts[k] <==> !Bumps(s, pairs, k)
    {
      ShadowIs(s.repeatCounts, pairs, k);
      LeadingMeans(AnswersTo(pairs, k), s.repeatCounts[k].resultDigest);
    }
    assert tallies == s.repeatCounts <==> forall k :: k in s.repeatCounts ==> tallies[k] == s.repeatCounts[k];
  }

  /** Continuing from a state leaves it as it was exactly when no call it had tallied is first
      answered the way it was last answered, and no decision in the suffix is news to it. */
  lemma PriorUntouched(s: State, log: seq<Record>)
    ensures PriorAfter(s, log) == s <==>
              && (forall k :: k in s.repeatCounts ==> !Bumps(s, Answers(StartFrom(s), log), k))
              && (forall id :: id in Decided(StartFrom(s), log) ==> !IsNews(s, Decided(StartFrom(s), log), id))
  {
    TalliesUntouched(s, log);
    ApprovalsAre(StartFrom(s), log);
    var decided := Decided(StartFrom(s), log);
    assert s.approvals + decided == s.approvals <==> forall id :: id in decided ==> !IsNews(s, decided, id);
  }

  // --------------------------------------------- calling it a second time

  /** The fold reads neither the tallies nor the decisions it carries: with others in their
      place it accepts and refuses the same records and differs in nothing else. */
  lemma {:induction false} CarriedAlong(f: Fold, g: Fold, log: seq<Record>)
    requires g == f.(state := f.state.(repeatCounts := g.state.repeatCounts, approvals := g.state.approvals))
    ensures Accepts(f, log) ==>
              && Accepts(g, log)
              && After(g, log) == After(f, log).(state := After(f, log).state.(
                   repeatCounts := RepeatsFold(g.state.repeatCounts, Answers(f, log)),
                   approvals := g.state.approvals + Decided(f, log)))
    ensures !Accepts(f, log) ==> Run(g, log) == Run(f, log)
  {
    if log != [] {
      CarriedAlong(f, g, Init(log));
      if Accepts(f, Init(log)) {
        CarriedStep(After(f, Init(log)), After(g, Init(log)), Last(log));
        if Accepts(f, log) {
          RunSnoc(f, log);
          var pause := After(f, Init(log)).state.waiting.pause;
          DecidedNext(f, log);
          ApprovalsSnoc(g.state.approvals, Decided(f, Init(log)), pause, Last(log).body);
          AnswersSnoc(f, log, g.state.repeatCounts);
        }
      }
    } else {
      assert g.state.approvals + map[] == g.state.approvals;
    }
  }

  lemma CarriedStep(f: Fold, g: Fold, r: Record)
    requires g == f.(state := f.state.(repeatCounts := g.state.repeatCounts, approvals := g.state.approvals))
    ensures Step(f, r).Accepted? ==>
              Step(g, r) == Accepted(Apply(f, r).(state := Apply(f, r).state.(
                repeatCounts := RepeatsStep(g.state.repeatCounts, Counted(f.state.calls.open, r.body)),
                approvals := ApprovalsStep(g.state.approvals, f.state.waiting.pause, r.body))))
    ensures !Step(f, r).Accepted? ==> Step(g, r) == Step(f, r)
  {
    CarriedCheck(f, g, r);
    CarriedApply(f, g, r);
  }

  lemma CarriedCheck(f: Fold, g: Fold, r: Record)
    requires g == f.(state := f.state.(repeatCounts := g.state.repeatCounts, approvals := g.state.approvals))
    ensures Check(g, r) == Check(f, r)
  {
  }

  lemma CarriedApply(f: Fold, g: Fold, r: Record)
    requires g == f.(state := f.state.(repeatCounts := g.state.repeatCounts, approvals := g.state.approvals))
    ensures Apply(g, r) == Apply(f, r).(state := Apply(f, r).state.(
              repeatCounts := RepeatsStep(g.state.repeatCounts, Counted(f.state.calls.open, r.body)),
              approvals := ApprovalsStep(g.state.approvals, f.state.waiting.pause, r.body)))
  {
  }

  lemma AnswersSnoc(f: Fold, log: seq<Record>, counts: map<Digest, Tally>)
    requires log != [] && Accepts(f, log)
    ensures RepeatsFold(counts, Answers(f, log))
            == RepeatsStep(RepeatsFold(counts, Answers(f, Init(log))), CountedAt(f, log))
  {
    var earlier, counted := Answers(f, Init(log)), CountedAt(f, log);
    if counted.Some? {
      assert Init(earlier + [counted.value]) == earlier;
    } else {
      assert earlier + [] == earlier;
    }
  }

  /** The tally a call ends with, given the one it started with: its answers are all that count. */
  function TallyFold(t: Option<Tally>, answers: seq<Digest>): Option<Tally> {
    if answers == [] then t
    else
      var before := TallyFold(t, Init(answers));
      if before.Some? && before.value.resultDigest == Last(answers)
      then Some(Tally(Last(answers), before.value.count + 1))
      else Some(Tally(Last(answers), 1))
  }

  function Held(counts: map<Digest, Tally>, k: Digest): Option<Tally> {
    if k in counts then Some(counts[k]) else None
  }

  lemma {:induction false} RepeatsAre(counts: map<Digest, Tally>, pairs: seq<(Digest, Digest)>, k: Digest)
    ensures Held(RepeatsFold(counts, pairs), k) == TallyFold(Held(counts, k), AnswersTo(pairs, k))
  {
    if pairs != [] {
      RepeatsAre(counts, Init(pairs), k);
      AnswersToNext(pairs, k);
      HeldNext(RepeatsFold(counts, Init(pairs)), Last(pairs).0, Last(pairs).1, k);
      TallyFoldSnoc(Held(counts, k), AnswersTo(Init(pairs), k), Last(pairs).1);
    }
  }

  lemma AnswersToNext(pairs: seq<(Digest, Digest)>, k: Digest)
    requires pairs != []
    ensures AnswersTo(pairs, k)
            == if Last(pairs).0 == k then AnswersTo(Init(pairs), k) + [Last(pairs).1] else AnswersTo(Init(pairs), k)
  {
    assert AnswersTo(Init(pairs), k) + [] == AnswersTo(Init(pairs), k);
  }

  /** One more answer to a call, from what it held before. */
  function Recounted(t: Option<Tally>, answer: Digest): Tally {
    if t.Some? && t.value.resultDigest == answer then Tally(answer, t.value.count + 1) else Tally(answer, 1)
  }

  lemma HeldNext(counts: map<Digest, Tally>, key: Digest, answer: Digest, k: Digest)
    ensures Held(RepeatStep(counts, key, answer), k)
            == if key == k then Some(Recounted(Held(counts, k), answer)) else Held(counts, k)
  {
  }

  lemma TallyFoldSnoc(t: Option<Tally>, answers: seq<Digest>, answer: Digest)
    ensures TallyFold(t, answers + [answer]) == Some(Recounted(TallyFold(t, answers), answer))
  {
    assert Init(answers + [answer]) == answers;
  }

  /** The starting count survives exactly while every answer is the tallied one. */
  lemma {:induction false} TallyKeepsCount(d: Digest, c: nat, extra: nat, answers: seq<Digest>)
    ensures var one, two := TallyFold(Some(Tally(d, c)), answers), TallyFold(Some(Tally(d, c + extra)), answers);
            if AllAre(answers, d)
            then one == Some(Tally(d, c + |answers|)) && two == Some(Tally(d, c + extra + |answers|))
            else one == two
  {
    if answers != [] {
      TallyKeepsCount(d, c, extra, Init(answers));
      AllAreSnoc(Init(answers), Last(answers), d);
      assert answers == Init(answers) + [Last(answers)];
    }
  }

  /** Folding the same suffix onto the same prior a second time is accepted again, and gives the
      same state exactly when no call the prior had tallied is answered in it, every time, the
      way the prior last saw it answered. */
  lemma CalledTwice(s: State, log: seq<Record>)
    requires Accepts(StartFrom(s), log)
    ensures Accepts(StartFrom(PriorAfter(s, log)), log)
    ensures After(StartFrom(PriorAfter(s, log)), log).state == After(StartFrom(s), log).state <==>
              forall k :: k in s.repeatCounts ==> !OnlyRepeats(s, Answers(StartFrom(s), log), k)
  {
    var f, g, pairs := StartFrom(s), StartFrom(PriorAfter(s, log)), Answers(StartFrom(s), log);
    CarriedAlong(f, g, log);
    CarriedAlong(f, f, log);
    ApprovalsAre(f, log);
    DecidedTwice(s.approvals, Decided(f, log));
    TalliesTwice(s, log, pairs);
    SameButTallies(After(f, log).state, After(g, log).state);
  }

  lemma DecidedTwice(made: map<CallId, bool>, decided: map<CallId, bool>)
    ensures (made + decided) + decided == made + decided
  {
  }

  lemma SameButTallies(s: State, t: State)
    requires t == s.(repeatCounts := t.repeatCounts)
    ensures t == s <==> t.repeatCounts == s.repeatCounts
  {
  }

  predicate OnlyRepeats(s: State, pairs: seq<(Digest, Digest)>, k: Digest) {
    k in s.repeatCounts && AnswersTo(pairs, k) != [] && AllAre(AnswersTo(pairs, k), s.repeatCounts[k].resultDigest)
  }

  lemma TalliesTwice(s: State, log: seq<Record>, pairs: seq<(Digest, Digest)>)
    requires pairs == Answers(StartFrom(s), log)
    ensures RepeatsFold(PriorAfter(s, log).repeatCounts, pairs) == RepeatsFold(s.repeatCounts, pairs) <==>
              forall k :: k in s.repeatCounts ==> !OnlyRepeats(s, pairs, k)
  {
    var before, again := s.repeatCounts, PriorAfter(s, log).repeatCounts;
    ShadowByAnswers(StartFrom(s), log);
    ShadowKeys(before, pairs);
    forall k: Digest
      ensures Held(RepeatsFold(again, pairs), k) == Held(RepeatsFold(before, pairs), k) <==> !OnlyRepeats(s, pairs, k)
    {
      RepeatsAre(before, pairs, k);
      RepeatsAre(again, pairs, k);
      if k in before {
        var d, answers := before[k].resultDigest, AnswersTo(pairs, k);
        ShadowIs(before, pairs, k);
        LeadingMeans(answers, d);
        TallyKeepsCount(d, before[k].count, Leading(answers, d), answers);
      }
    }
    SameTallies(RepeatsFold(again, pairs), RepeatsFold(before, pairs));
  }

  lemma SameTallies(a: map<Digest, Tally>, b: map<Digest, Tally>)
    ensures a == b <==> forall k: Digest :: Held(a, k) == Held(b, k)
  {
    if forall k: Digest :: Held(a, k) == Held(b, k) {
      forall k: Digest
        ensures k in a <==> k in b
        ensures k in a && k in b ==> a[k] == b[k]
      {
        assert Held(a, k) == Held(b, k);
      }
    }
  }
}
