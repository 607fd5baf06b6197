/** A Run's ending in the log: what may follow a settlement, and which ending the fold keeps. */
module Endings {
  import opened Values
  import opened Records
  import opened Reducer

  /** The last settlement of a log. */
  function Ending(log: seq<Record>): (r: Option<Record>)
    ensures r.Some? ==> r.value.body.RunSettled?
  {
    if log == [] then None
    else if Last(log).body.RunSettled? then Some(Last(log))
    else Ending(Init(log))
  }

  /** A settlement of this Run in its place. */
  predicate Settles(s: State, r: Record, seqNo: nat) {
    r.body.RunSettled? && r.runId == s.runId && r.scope.tenant == s.scope.tenant && r.seqNo == seqNo
  }

  /** The state with another ending, and nothing else changed but the sequence and what a
      settlement closes. */
  function EndedBy(s: State, r: Record): State
    requires r.body.RunSettled?
  {
    s.(headSeq := r.seqNo, turns := Turns(s.turns.turn, false, false),
       life := s.life.(settled := true, terminal := Some(r.body.terminal),
                       output := r.body.output, failure := r.body.failure))
  }

  lemma SettleStep(f: Fold, r: Record)
    ensures f.state.life.settled ==> (Step(f, r).Accepted? <==> Settles(f.state, r, f.state.headSeq + 1))
    ensures Step(f, r).Accepted? && r.body.RunSettled? ==> Step(f, r).value == Fold(EndedBy(f.state, r), f.locals)
    ensures Step(f, r).Accepted? && !r.body.RunSettled? ==>
              var l, l' := f.state.life, Step(f, r).value.state.life;
              l'.settled == l.settled && l'.terminal == l.terminal && !l.settled
  {
  }

  predicate AllSettle(s: State, log: seq<Record>) {
    forall i :: 0 <= i < |log| ==> Settles(s, log[i], s.headSeq + i + 1)
  }

  lemma AllSettleNext(s: State, log: seq<Record>)
    requires log != []
    ensures AllSettle(s, log) <==> AllSettle(s, Init(log)) && Settles(s, Last(log), s.headSeq + |log|)
  {
    assert forall i :: 0 <= i < |Init(log)| ==> Init(log)[i] == log[i];
  }

  /** After a settlement exactly further settlements of the same Run are accepted. Each of them
      replaces the ending before it, and nothing else of the state. */
  lemma {:induction false} SettledEnds(f: Fold, log: seq<Record>)
    requires f.state.life.settled
    ensures Accepts(f, log) <==> AllSettle(f.state, log)
    ensures Accepts(f, log) && log != [] ==>
              Last(log).body.RunSettled? && After(f, log) == Fold(EndedBy(f.state, Last(log)), f.locals)
  {
    if log != [] {
      SettledEnds(f, Init(log));
      AllSettleNext(f.state, log);
      if Accepts(f, Init(log)) {
        AfterEndings(f, After(f, Init(log)), Init(log));
        SettleStep(After(f, Init(log)), Last(log));
      }
    }
  }

  /** What stays of a fold while it is only settled again. */
  lemma AfterEndings(f: Fold, g: Fold, log: seq<Record>)
    requires f.state.life.settled && AllSettle(f.state, log)
    requires g == if log == [] then f else Fold(EndedBy(f.state, Last(log)), f.locals)
    ensures g.state.life.settled && g.state.headSeq == f.state.headSeq + |log|
    ensures forall r, n: nat :: Settles(g.state, r, n) <==> Settles(f.state, r, n)
    ensures forall r: Record :: r.body.RunSettled? ==> EndedBy(g.state, r) == EndedBy(f.state, r)
    ensures g.locals == f.locals
  {
    if log != [] {
      assert Settles(f.state, log[|log| - 1], f.state.headSeq + |log|);
    }
  }

  /** So an ending is kept exactly when no other one follows. */
  lemma EndingKept(f: Fold, log: seq<Record>)
    requires f.state.life.settled && Accepts(f, log)
    ensures After(f, log).state.life.terminal == f.state.life.terminal
            <==> Ending(log).None? || Some(Ending(log).value.body.terminal) == f.state.life.terminal
  {
    SettledEnds(f, log);
  }

  /** A Run has ended exactly when its log holds a settlement, its ending is the last one's, and
      nothing but settlements follows the first. */
  lemma {:induction false} EndingIs(runId: RunId, scope: Scope, log: seq<Record>)
    requires Accepts(Fresh(runId, scope), log)
    ensures var l := After(Fresh(runId, scope), log).state.life;
            && (l.settled <==> Ending(log).Some?)
            && l.terminal == (if Ending(log).Some? then Some(Ending(log).value.body.terminal) else None)
    ensures forall i, j :: 0 <= i < j < |log| && log[i].body.RunSettled? ==> log[j].body.RunSettled?
    ensures forall i :: 0 <= i < |log| && log[i].body.RunSettled? ==> Ending(log).Some?
  {
    if log != [] {
      RunSnoc(Fresh(runId, scope), log);
      EndingIs(runId, scope, Init(log));
      SettleStep(After(Fresh(runId, scope), Init(log)), Last(log));
      assert forall i :: 0 <= i < |Init(log)| ==> Init(log)[i] == log[i];
    }
  }
}
