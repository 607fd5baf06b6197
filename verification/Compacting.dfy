/** Where a compaction cuts, what the conversation is after it, and why a crash on either side
    of writing it does no harm. */
module Compacting {
  import opened Values
  import opened Records
  import opened Conversation

  /** The sequences of the turns started above the boundary. */
  function TurnSeqs(log: seq<Record>, boundary: nat): seq<nat> {
    if log == [] then []
    else
      var earlier := TurnSeqs(Init(log), boundary);
      if Last(log).body.TurnStarted? && Last(log).seqNo > boundary then earlier + [Last(log).seqNo] else earlier
  }

  /** `plan_cut`. Keeping no turn picks the first one, because index -0 is index 0. */
  function PlanCut(log: seq<Record>, boundary: nat, keep: nat): Option<int> {
    var turns := TurnSeqs(log, boundary);
    if |turns| <= keep then None
    else
      var turn: int := turns[if keep == 0 then 0 else |turns| - keep];
      var cut := turn - 1;
      if cut > boundary then Some(cut) else None
  }

  /** Records numbered from 1, as every accepted log is. */
  predicate InSequence(log: seq<Record>) {
    forall i :: 0 <= i < |log| ==> log[i].seqNo == i + 1
  }

  predicate StrictlyIncreasing(s: seq<nat>) {
    forall i, j :: 0 <= i < j < |s| ==> s[i] < s[j]
  }

  lemma {:induction false} TurnSeqsAre(log: seq<Record>, boundary: nat)
    requires InSequence(log)
    ensures StrictlyIncreasing(TurnSeqs(log, boundary))
    ensures AreTurns(TurnSeqs(log, boundary), log, boundary)
  {
    if log != [] {
      TurnSeqsNext(log, boundary);
      TurnSeqsAre(Init(log), boundary);
      AreTurnsNext(TurnSeqs(Init(log), boundary), log, boundary);
    }
  }

  lemma {:induction false} TurnSeqsNext(log: seq<Record>, boundary: nat)
    requires log != [] && InSequence(log)
    ensures InSequence(Init(log))
    ensures TurnSeqs(log, boundary)
            == if Last(log).body.TurnStarted? && |log| > boundary then TurnSeqs(Init(log), boundary) + [|log|]
               else TurnSeqs(Init(log), boundary)
  {
    assert forall i :: 0 <= i < |Init(log)| ==> Init(log)[i] == log[i];
    assert Last(log).seqNo == |log|;
  }

  /** Sequences of turns that start in the log, above the boundary. */
  predicate AreTurns(turns: seq<nat>, log: seq<Record>, boundary: nat) {
    forall i :: 0 <= i < |turns| ==> boundary < turns[i] <= |log| && log[turns[i] - 1].body.TurnStarted?
  }

  lemma AreTurnsNext(turns: seq<nat>, log: seq<Record>, boundary: nat)
    requires log != [] && AreTurns(turns, Init(log), boundary) && StrictlyIncreasing(turns)
    ensures AreTurns(turns, log, boundary)
    ensures Last(log).body.TurnStarted? && |log| > boundary ==>
              AreTurns(turns + [|log|], log, boundary) && StrictlyIncreasing(turns + [|log|])
  {
    forall i | 0 <= i < |turns| ensures turns[i] < |log| && log[turns[i] - 1] == Init(log)[turns[i] - 1] {
      assert turns[i] <= |Init(log)|;
    }
  }

  /** Raising the boundary drops the turns at or below it and keeps the rest. */
  lemma {:induction false} TurnSeqsAbove(log: seq<Record>, boundary: nat, higher: nat, kept: nat)
    requires InSequence(log) && boundary <= higher && kept <= |TurnSeqs(log, boundary)|
    requires var turns := TurnSeqs(log, boundary);
             && (forall i :: 0 <= i < kept ==> turns[i] <= higher)
             && (forall i :: kept <= i < |turns| ==> turns[i] > higher)
    ensures TurnSeqs(log, higher) == TurnSeqs(log, boundary)[kept..]
  {
    if log != [] {
      var init, turns := Init(log), TurnSeqs(log, boundary);
      assert forall i :: 0 <= i < |init| ==> init[i] == log[i];
      var earlier := TurnSeqs(init, boundary);
      assert earlier == turns[..|earlier|];
      assert forall i :: 0 <= i < |earlier| ==> earlier[i] == turns[i];
      if kept <= |earlier| {
        TurnSeqsAbove(init, boundary, higher, kept);
        if |turns| > |earlier| {
          assert turns[kept..] == earlier[kept..] + [turns[|earlier|]];
        }
      } else {
        TurnSeqsAbove(init, boundary, higher, |earlier|);
      }
    }
  }

  /** A cut is planned exactly when more turns than the policy keeps have started above the
      boundary; it advances the boundary, sits just before a turn, and keeps that many turns. */
  lemma PlanCutMeans(log: seq<Record>, boundary: nat, keep: nat)
    requires InSequence(log) && keep > 0
    ensures PlanCut(log, boundary, keep).Some? <==> |TurnSeqs(log, boundary)| > keep
    ensures PlanCut(log, boundary, keep).Some? ==>
              var cut := PlanCut(log, boundary, keep).value;
              && boundary < cut < |log|
              && log[cut].body.TurnStarted?
              && |TurnSeqs(log, cut)| == keep
  {
    var turns := TurnSeqs(log, boundary);
    TurnSeqsAre(log, boundary);
    if |turns| > keep {
      var kept := |turns| - keep;
      assert turns[0] < turns[kept];
      TurnSeqsAbove(log, boundary, turns[kept] - 1, kept);
    }
  }

  /** A policy that kept no turn would cut before the first one: every turn would stay. */
  lemma KeepingNone(log: seq<Record>, boundary: nat)
    requires InSequence(log)
    ensures var turns := TurnSeqs(log, boundary);
            PlanCut(log, boundary, 0).Some? <==> turns != [] && turns[0] > boundary + 1
    ensures PlanCut(log, boundary, 0).Some? ==>
              var cut := PlanCut(log, boundary, 0).value;
              cut > boundary && TurnSeqs(log, cut) == TurnSeqs(log, boundary)
  {
    TurnSeqsAre(log, boundary);
    if PlanCut(log, boundary, 0).Some? {
      TurnSeqsAbove(log, boundary, PlanCut(log, boundary, 0).value, 0);
    }
  }

  /** Raising the boundary past a turn leaves fewer turns above it. */
  lemma {:induction false} TurnSeqsFewer(log: seq<Record>, low: nat, high: nat)
    requires InSequence(log) && low <= high
    ensures |TurnSeqs(log, high)| <= |TurnSeqs(log, low)|
    ensures low < high && low < |log| && log[low].body.TurnStarted? ==> |TurnSeqs(log, high)| < |TurnSeqs(log, low)|
  {
    if log != [] {
      assert forall i :: 0 <= i < |Init(log)| ==> Init(log)[i] == log[i];
      TurnSeqsFewer(Init(log), low, high);
    }
  }

  // -------------------------------------------------------------- crash safety

  /** A cut having its summary written, and how long the log was when it was planned. */
  datatype Planned = Planned(cut: int, at: nat)

  /** A worker: the log, and the plan in hand, if any. */
  datatype Worker = Worker(log: seq<Record>, plan: Option<Planned>)

  /** What can happen next, in any order. Any other record, a turn among them, may land while
      the summary is being written. */
  datatype Action =
    | Plan
    | Crash
    | Append(compaction: Record)
    | Write(other: Record)

  predicate Allowed(w: Worker, a: Action) {
    match a
    case Plan => true
    case Crash => true
    case Append(c) =>
      && w.plan.Some? && c.seqNo == |w.log| + 1
      && c.body.CompactionApplied? && c.body.replacedToSeq == w.plan.value.cut
    case Write(r) => r.seqNo == |w.log| + 1 && !r.body.CompactionApplied?
  }

  function Act(w: Worker, keep: nat, a: Action): Worker {
    match a
    case Plan =>
      var cut := PlanCut(w.log, Boundary(w.log), keep);
      w.(plan := if cut.Some? then Some(Planned(cut.value, |w.log|)) else None)
    case Crash => w.(plan := None)
    case Append(c) => Worker(w.log + [c], None)
    case Write(r) => w.(log := w.log + [r])
  }

  /** Whether a whole interleaving can happen, and where it leads. */
  predicate Happens(keep: nat, actions: seq<Action>) {
    actions == [] || (Happens(keep, Init(actions)) && Allowed(Reached(keep, Init(actions)), Last(actions)))
  }

  function Reached(keep: nat, actions: seq<Action>): Worker {
    if actions == [] then Worker([], None) else Act(Reached(keep, Init(actions)), keep, Last(actions))
  }

  /** The cuts written so far, oldest first. */
  function Cuts(log: seq<Record>): seq<nat> {
    if log == [] then []
    else if Last(log).body.CompactionApplied? then Cuts(Init(log)) + [Last(log).body.replacedToSeq]
    else Cuts(Init(log))
  }

  /** The turns started since the log was `at` records long. */
  function TurnsSince(log: seq<Record>, at: nat): nat {
    if |log| <= at then 0
    else TurnsSince(Init(log), at) + (if Last(log).body.TurnStarted? then 1 else 0)
  }

  /** A cut between turns: just before one starts, or before everything. */
  predicate AtTurn(log: seq<Record>, cut: nat) {
    cut == 0 || (cut < |log| && log[cut].body.TurnStarted?)
  }

  /** What every interleaving keeps of the log. */
  ghost predicate SafeLog(log: seq<Record>, keep: nat) {
    && InSequence(log)
    && StrictlyIncreasing(Cuts(log))
    && Boundary(log) == (if Cuts(log) == [] then 0 else Last(Cuts(log)))
    && AtTurn(log, Boundary(log))
    && |Cuts(log)| + |TurnSeqs(log, Boundary(log))| <= |TurnSeqs(log, 0)|
    && (Cuts(log) != [] ==> |TurnSeqs(log, Boundary(log))| >= keep)
  }

  /** And of a plan in hand: it still advances the boundary past a turn, and leaves the turns to
      keep and exactly those started since it was made. */
  ghost predicate SafePlan(log: seq<Record>, plan: Planned, keep: nat) {
    && plan.at <= |log|
    && Boundary(log) < plan.cut < |log|
    && log[plan.cut].body.TurnStarted?
    && |TurnSeqs(log, plan.cut)| == keep + TurnsSince(log, plan.at)
    && |TurnSeqs(log, plan.cut)| < |TurnSeqs(log, Boundary(log))|
  }

  ghost predicate Safe(w: Worker, keep: nat) {
    SafeLog(w.log, keep) && (w.plan.Some? ==> SafePlan(w.log, w.plan.value, keep))
  }

  lemma Snoc(log: seq<Record>, r: Record)
    ensures Init(log + [r]) == log && Last(log + [r]) == r
    ensures Boundary(log + [r])
            == if r.body.CompactionApplied? && r.body.replacedToSeq > Boundary(log) then r.body.replacedToSeq
               else Boundary(log)
    ensures Cuts(log + [r]) == Cuts(log) + (if r.body.CompactionApplied? then [r.body.replacedToSeq] else [])
    ensures forall b :: TurnSeqs(log + [r], b)
                        == TurnSeqs(log, b) + (if r.body.TurnStarted? && r.seqNo > b then [r.seqNo] else [])
    ensures forall at: nat :: at <= |log| ==>
              TurnsSince(log + [r], at) == TurnsSince(log, at) + (if r.body.TurnStarted? then 1 else 0)
  {
    assert Init(log + [r]) == log;
  }

  lemma InSequenceSnoc(log: seq<Record>, r: Record)
    requires InSequence(log) && r.seqNo == |log| + 1
    ensures InSequence(log + [r])
  {
  }

  /** A plan just made. */
  lemma PlanIsSafe(log: seq<Record>, keep: nat)
    requires SafeLog(log, keep) && keep > 0 && PlanCut(log, Boundary(log), keep).Some?
    ensures SafePlan(log, Planned(PlanCut(log, Boundary(log), keep).value, |log|), keep)
  {
    PlanCutMeans(log, Boundary(log), keep);
  }

  /** Writing the compaction that was planned keeps the turns the policy keeps and those started
      since the plan was made, no more and no fewer. */
  lemma AppendKeeps(log: seq<Record>, plan: Planned, keep: nat, c: Record)
    requires SafeLog(log, keep) && SafePlan(log, plan, keep)
    requires c.seqNo == |log| + 1 && c.body.CompactionApplied? && c.body.replacedToSeq == plan.cut
    ensures SafeLog(log + [c], keep)
    ensures Boundary(log + [c]) == plan.cut > Boundary(log)
    ensures |TurnSeqs(log + [c], Boundary(log + [c]))| == keep + TurnsSince(log, plan.at)
  {
    Snoc(log, c);
    InSequenceSnoc(log, c);
    CutsAppended(Cuts(log), plan.cut);
  }

  lemma CutsAppended(cuts: seq<nat>, cut: nat)
    requires StrictlyIncreasing(cuts) && (cuts != [] ==> Last(cuts) < cut)
    ensures StrictlyIncreasing(cuts + [cut])
  {
    assert forall i :: 0 <= i < |cuts| ==> cuts[i] <= Last(cuts);
  }

  lemma WriteKeeps(log: seq<Record>, keep: nat, r: Record)
    requires SafeLog(log, keep) && r.seqNo == |log| + 1 && !r.body.CompactionApplied?
    ensures SafeLog(log + [r], keep) && Boundary(log + [r]) == Boundary(log)
    ensures forall plan :: SafePlan(log, plan, keep) ==> SafePlan(log + [r], plan, keep)
  {
    Snoc(log, r);
    InSequenceSnoc(log, r);
    assert Cuts(log) + [] == Cuts(log);
  }

  /** Every interleaving of planning, crashing, appending and other records, turns included
      wherever they fall, keeps the worker safe. */
  lemma {:induction false} AlwaysSafe(keep: nat, actions: seq<Action>)
    requires keep > 0 && Happens(keep, actions)
    ensures Safe(Reached(keep, actions), keep)
  {
    if actions != [] {
      AlwaysSafe(keep, Init(actions));
      var w := Reached(keep, Init(actions));
      match Last(actions)
      case Plan =>
        if PlanCut(w.log, Boundary(w.log), keep).Some? {
          PlanIsSafe(w.log, keep);
        }
      case Crash =>
      case Append(c) => AppendKeeps(w.log, w.plan.value, keep, c);
      case Write(r) => WriteKeeps(w.log, keep, r);
    }
  }

  /** So the boundary strictly increases from one compaction to the next, at least the turns the
      policy keeps stay below it, and there are at most as many compactions as turns, less those. */
  lemma CompactionsBounded(keep: nat, actions: seq<Action>)
    requires keep > 0 && Happens(keep, actions)
    ensures var log := Reached(keep, actions).log;
            && StrictlyIncreasing(Cuts(log))
            && (Cuts(log) != [] ==> Boundary(log) == Last(Cuts(log)))
            && (Cuts(log) != [] ==> |TurnSeqs(log, Boundary(log))| >= keep)
            && (Cuts(log) != [] ==> |Cuts(log)| + keep <= |TurnSeqs(log, 0)|)
  {
    AlwaysSafe(keep, actions);
  }

  /** What a written compaction keeps: the policy's turns and those started since the plan, so
      exactly the policy's when none was. */
  lemma KeptTurns(keep: nat, actions: seq<Action>, c: Record)
    requires keep > 0 && Happens(keep, actions) && Allowed(Reached(keep, actions), Append(c))
    ensures var w := Reached(keep, actions);
            var log, since := w.log + [c], TurnsSince(w.log, w.plan.value.at);
            && Boundary(log) == c.body.replacedToSeq > Boundary(w.log)
            && |TurnSeqs(log, Boundary(log))| == keep + since
            && (since == 0 <==> |TurnSeqs(log, Boundary(log))| == keep)
  {
    AlwaysSafe(keep, actions);
    var w := Reached(keep, actions);
    AppendKeeps(w.log, w.plan.value, keep, c);
  }

  /** Records that are no compaction leave the boundary, and each turn among them is kept. */
  lemma {:induction false} LaterKeeps(log: seq<Record>, keep: nat, at: nat, later: seq<Record>)
    requires SafeLog(log, keep) && at <= |log| && |TurnSeqs(log, Boundary(log))| == keep + TurnsSince(log, at)
    requires InSequence(log + later)
    requires forall i :: 0 <= i < |later| ==> !later[i].body.CompactionApplied?
    ensures SafeLog(log + later, keep) && Boundary(log + later) == Boundary(log)
    ensures |TurnSeqs(log + later, Boundary(log))| == keep + TurnsSince(log + later, at)
    decreases |later|
  {
    if later == [] {
      assert log + later == log;
    } else {
      var r := later[0];
      assert (log + later)[|log|] == r;
      WriteKeeps(log, keep, r);
      Snoc(log, r);
      assert (log + [r]) + later[1..] == log + later;
      LaterKeeps(log + [r], keep, at, later[1..]);
    }
  }

  /** A worker that takes over after the append, however many other records have landed, plans
      nothing exactly when no turn has started since the plan was made. */
  lemma NothingTwice(keep: nat, actions: seq<Action>, c: Record, later: seq<Record>)
    requires keep > 0 && Happens(keep, actions) && Allowed(Reached(keep, actions), Append(c))
    requires InSequence(Reached(keep, actions).log + [c] + later)
    requires forall i :: 0 <= i < |later| ==> !later[i].body.CompactionApplied?
    ensures var w := Reached(keep, actions);
            var log := w.log + [c] + later;
            && Boundary(log) == c.body.replacedToSeq
            && |TurnSeqs(log, Boundary(log))| == keep + TurnsSince(log, w.plan.value.at)
            && (PlanCut(log, Boundary(log), keep).None? <==> TurnsSince(log, w.plan.value.at) == 0)
  {
    AlwaysSafe(keep, actions);
    var w := Reached(keep, actions);
    AppendKeeps(w.log, w.plan.value, keep, c);
    Snoc(w.log, c);
    LaterKeeps(w.log + [c], keep, w.plan.value.at, later);
    PlanCutMeans(w.log + [c] + later, c.body.replacedToSeq, keep);
  }

  /** A worker that takes over before the append plans a cut no lower than the one lost, and the
      same cut exactly when no turn has started since. */
  lemma LostPlanReplanned(keep: nat, actions: seq<Action>)
    requires keep > 0 && Happens(keep, actions) && Reached(keep, actions).plan.Some?
    ensures var w := Reached(keep, actions);
            var again := Act(Act(w, keep, Crash), keep, Plan).plan;
            && again.Some?
            && again.value.cut >= w.plan.value.cut
            && (again.value.cut == w.plan.value.cut <==> TurnsSince(w.log, w.plan.value.at) == 0)
  {
    AlwaysSafe(keep, actions);
    var w := Reached(keep, actions);
    PlanCutMeans(w.log, Boundary(w.log), keep);
    var cut, again := w.plan.value.cut, PlanCut(w.log, Boundary(w.log), keep).value;
    if again < cut {
      TurnSeqsFewer(w.log, again, cut);
    } else {
      TurnSeqsFewer(w.log, cut, again);
    }
  }
}
