/** The three pending lists, read back from the log: what was enqueued and not withdrawn. */
module PendingQueues {
  import opened Values
  import opened Records
  import opened Reducer

  /** Every entry a log enqueues, oldest first. */
  function Enqueued(log: seq<Record>): seq<Entry> {
    if log == [] then []
    else
      var b := Last(log).body;
      Enqueued(Init(log))
      + (if b.QueueEnqueued? then [Entry(b.entryId, b.queue, b.payload, Last(log).seqNo)] else [])
  }

  /** Every entry id a log cancels or consumes. */
  function Gone(log: seq<Record>): set<string> {
    if log == [] then {}
    else
      var b := Last(log).body;
      Gone(Init(log)) + (if b.QueueCancelled? || b.QueueConsumed? then {b.entryId} else {})
  }

  function Ids(entries: seq<Entry>): set<string> {
    set i | 0 <= i < |entries| :: entries[i].entryId
  }

  /** The entries of one queue that are not gone, in order. */
  function Remaining(entries: seq<Entry>, kind: QueueKind, gone: set<string>): seq<Entry> {
    if entries == [] then []
    else
      Remaining(Init(entries), kind, gone)
      + (if Last(entries).queue == kind && Last(entries).entryId !in gone then [Last(entries)] else [])
  }

  predicate Increasing(entries: seq<Entry>) {
    forall i, j :: 0 <= i < j < |entries| ==> entries[i].enqueuedSeq < entries[j].enqueuedSeq
  }

  predicate DistinctIds(entries: seq<Entry>) {
    forall i, j :: 0 <= i < j < |entries| ==> entries[i].entryId != entries[j].entryId
  }

  /** The queues and the loop's own book-keeping are what the log says. */
  ghost predicate Exact(q: Queues, l: Locals, head: nat, log: seq<Record>) {
    ExactFor(q, l, head, Enqueued(log), Gone(log))
  }

  ghost predicate ExactFor(q: Queues, l: Locals, head: nat, entries: seq<Entry>, gone: set<string>) {
    && ListsFor(q, entries, gone)
    && HistoryFor(entries, head)
    && LocalsFor(l, entries, gone)
  }

  ghost predicate ListsFor(q: Queues, entries: seq<Entry>, gone: set<string>) {
    && q.steer == Remaining(entries, Steer, gone)
    && q.followUp == Remaining(entries, FollowUp, gone)
    && q.nextRun == Remaining(entries, NextRun, gone)
  }

  ghost predicate HistoryFor(entries: seq<Entry>, head: nat) {
    && DistinctIds(entries)
    && Increasing(entries)
    && forall i :: 0 <= i < |entries| ==> entries[i].enqueuedSeq <= head
  }

  ghost predicate LocalsFor(l: Locals, entries: seq<Entry>, gone: set<string>) {
    && l.enqueued.Keys == Ids(entries)
    && (forall i :: 0 <= i < |entries| ==> l.enqueued[entries[i].entryId] == entries[i])
    && l.cancelled + l.consumed == gone
    && gone <= Ids(entries)
  }

  lemma {:induction false} RemoveSnoc(q: seq<Entry>, e: Entry, id: string)
    ensures RemoveEntry(q + [e], id)
            == if id in Ids(q) then RemoveEntry(q, id) + [e] else if e.entryId == id then q else q + [e]
  {
    if q == [] {
      assert q + [e] == [e];
      assert [e][1..] == [];
      assert [e] + RemoveEntry([], id) == [e];
    } else {
      assert (q + [e])[1..] == q[1..] + [e];
      RemoveSnoc(q[1..], e, id);
      if q[0].entryId == id {
        assert q[0].entryId in Ids(q);
      } else {
        IdsTail(q, id);
        if id in Ids(q) {
          assert [q[0]] + (RemoveEntry(q[1..], id) + [e]) == ([q[0]] + RemoveEntry(q[1..], id)) + [e];
        } else if e.entryId != id {
          assert [q[0]] + (q[1..] + [e]) == q + [e];
        } else {
          assert [q[0]] + q[1..] == q;
        }
      }
    }
  }

  lemma IdsTail(q: seq<Entry>, id: string)
    requires q != [] && q[0].entryId != id
    ensures id in Ids(q) <==> id in Ids(q[1..])
  {
    if id in Ids(q) {
      var i :| 0 <= i < |q| && q[i].entryId == id;
      assert q[1..][i - 1].entryId == id;
    }
    if id in Ids(q[1..]) {
      var i :| 0 <= i < |q| - 1 && q[1..][i].entryId == id;
      assert q[i + 1].entryId == id;
    }
  }

  lemma IdsSnoc(entries: seq<Entry>, e: Entry)
    ensures Ids(entries + [e]) == Ids(entries) + {e.entryId}
  {
    var all := entries + [e];
    assert all[|entries|] == e;
    forall id | id in Ids(entries)
      ensures id in Ids(all)
    {
      var i :| 0 <= i < |entries| && entries[i].entryId == id;
      assert all[i] == entries[i];
    }
  }

  lemma {:induction false} RemainingIds(entries: seq<Entry>, kind: QueueKind, gone: set<string>)
    ensures Ids(Remaining(entries, kind, gone)) <= Ids(entries) - gone
    ensures forall i :: 0 <= i < |entries| && entries[i].queue == kind && entries[i].entryId !in gone ==>
              entries[i].entryId in Ids(Remaining(entries, kind, gone))
  {
    if entries != [] {
      var init, e := Init(entries), Last(entries);
      assert entries == init + [e];
      RemainingIds(init, kind, gone);
      IdsSnoc(init, e);
      IdsSnoc(Remaining(init, kind, gone), e);
      assert Remaining(init, kind, gone) + [] == Remaining(init, kind, gone);
      forall i | 0 <= i < |entries| && entries[i].queue == kind && entries[i].entryId !in gone
        ensures entries[i].entryId in Ids(Remaining(entries, kind, gone))
      {
        if i < |init| {
          assert init[i] == entries[i];
        }
      }
    }
  }

  /** Ids that no entry carries may be added to the gone ones without effect. */
  lemma {:induction false} RemainingFresh(entries: seq<Entry>, kind: QueueKind, gone: set<string>, id: string)
    requires forall i :: 0 <= i < |entries| && entries[i].queue == kind ==> entries[i].entryId != id
    ensures Remaining(entries, kind, gone + {id}) == Remaining(entries, kind, gone)
  {
    if entries != [] {
      assert Last(entries) == entries[|entries| - 1];
      forall i | 0 <= i < |Init(entries)| && Init(entries)[i].queue == kind
        ensures Init(entries)[i].entryId != id
      {
        assert Init(entries)[i] == entries[i];
      }
      RemainingFresh(Init(entries), kind, gone, id);
    }
  }

  /** Withdrawing an entry is deleting it from its list. */
  lemma {:induction false} RemainingWithout(entries: seq<Entry>, kind: QueueKind, gone: set<string>, id: string)
    requires DistinctIds(entries)
    ensures Remaining(entries, kind, gone + {id}) == RemoveEntry(Remaining(entries, kind, gone), id)
  {
    if entries != [] {
      var init, e := Init(entries), Last(entries);
      assert forall i :: 0 <= i < |init| ==> init[i] == entries[i];
      RemainingWithout(init, kind, gone, id);
      var rest := Remaining(init, kind, gone);
      RemoveSnoc(rest, e, id);
      RemainingIds(init, kind, gone);
      if e.entryId == id {
        RemainingFresh(init, kind, gone, id);
        assert id !in Ids(init);
      } else if id !in Ids(rest) {
        RemoveAbsent(rest, id);
      }
      assert rest + [] == rest;
      assert RemoveEntry(rest, id) + [] == RemoveEntry(rest, id);
    }
  }

  lemma {:induction false} RemoveAbsent(q: seq<Entry>, id: string)
    requires id !in Ids(q)
    ensures RemoveEntry(q, id) == q
  {
    if q != [] {
      assert q[0].entryId in Ids(q);
      IdsTail(q, id);
      RemoveAbsent(q[1..], id);
    }
  }

  lemma RemainingSnoc(entries: seq<Entry>, kind: QueueKind, gone: set<string>, e: Entry)
    requires e.entryId !in gone
    ensures Remaining(entries + [e], kind, gone)
            == if e.queue == kind then Remaining(entries, kind, gone) + [e] else Remaining(entries, kind, gone)
  {
    assert Init(entries + [e]) == entries && Last(entries + [e]) == e;
    assert Remaining(entries, kind, gone) + [] == Remaining(entries, kind, gone);
  }

  lemma HistorySnoc(entries: seq<Entry>, e: Entry, head: nat)
    requires HistoryFor(entries, head) && e.entryId !in Ids(entries) && head < e.enqueuedSeq
    ensures HistoryFor(entries + [e], e.enqueuedSeq)
  {
    assert forall i :: 0 <= i < |entries| ==> (entries + [e])[i] == entries[i] && entries[i].entryId in Ids(entries);
  }

  lemma LocalsSnoc(l: Locals, entries: seq<Entry>, gone: set<string>, e: Entry)
    requires LocalsFor(l, entries, gone) && e.entryId !in l.enqueued
    ensures LocalsFor(l.(enqueued := l.enqueued[e.entryId := e]), entries + [e], gone)
  {
    IdsSnoc(entries, e);
    forall i | 0 <= i < |entries + [e]|
      ensures l.enqueued[e.entryId := e][(entries + [e])[i].entryId] == (entries + [e])[i]
    {
      if i < |entries| {
        assert entries[i].entryId in Ids(entries);
      }
    }
  }

  lemma ListsSnoc(q: Queues, entries: seq<Entry>, gone: set<string>, e: Entry)
    requires ListsFor(q, entries, gone) && e.entryId !in gone
    ensures ListsFor(q.With(e.queue, q.Of(e.queue) + [e]), entries + [e], gone)
  {
    RemainingSnoc(entries, Steer, gone, e);
    RemainingSnoc(entries, FollowUp, gone, e);
    RemainingSnoc(entries, NextRun, gone, e);
  }

  lemma WithdrawnFrom(entries: seq<Entry>, kind: QueueKind, gone: set<string>, e: Entry)
    requires DistinctIds(entries) && e in entries
    ensures Remaining(entries, kind, gone + {e.entryId})
            == if kind == e.queue then RemoveEntry(Remaining(entries, kind, gone), e.entryId)
               else Remaining(entries, kind, gone)
  {
    if kind == e.queue {
      RemainingWithout(entries, kind, gone, e.entryId);
    } else {
      RemainingFresh(entries, kind, gone, e.entryId);
    }
  }

  lemma ListsWithdrawn(q: Queues, entries: seq<Entry>, gone: set<string>, e: Entry)
    requires ListsFor(q, entries, gone) && DistinctIds(entries) && e in entries
    ensures ListsFor(q.With(e.queue, RemoveEntry(q.Of(e.queue), e.entryId)), entries, gone + {e.entryId})
  {
    WithdrawnFrom(entries, Steer, gone, e);
    WithdrawnFrom(entries, FollowUp, gone, e);
    WithdrawnFrom(entries, NextRun, gone, e);
  }

  lemma HistoryStep(log: seq<Record>)
    requires log != []
    ensures Last(log).body.QueueEnqueued? ==>
              && Enqueued(log) == Enqueued(Init(log)) + [EntryOf(Last(log))]
              && Gone(log) == Gone(Init(log))
    ensures Last(log).body.QueueCancelled? || Last(log).body.QueueConsumed? ==>
              && Enqueued(log) == Enqueued(Init(log))
              && Gone(log) == Gone(Init(log)) + {Last(log).body.entryId}
    ensures !Last(log).body.QueueEnqueued? && !Last(log).body.QueueCancelled? && !Last(log).body.QueueConsumed? ==>
              Enqueued(log) == Enqueued(Init(log)) && Gone(log) == Gone(Init(log))
  {
  }

  function EntryOf(r: Record): Entry
    requires r.body.QueueEnqueued?
  {
    Entry(r.body.entryId, r.body.queue, r.body.payload, r.seqNo)
  }

  lemma ExactStep(f: Fold, g: Fold, log: seq<Record>)
    requires log != [] && Exact(f.state.queues, f.locals, f.state.headSeq, Init(log))
    requires Step(f, Last(log)) == Accepted(g)
    ensures Exact(g.state.queues, g.locals, g.state.headSeq, log)
  {
    StepEffect(f, Last(log));
    HistoryStep(log);
    var b, q, l, entries, gone := Last(log).body, f.state.queues, f.locals, Enqueued(Init(log)), Gone(Init(log));
    if b.QueueEnqueued? {
      ExactEnqueue(q, l, f.state.headSeq, entries, gone, EntryOf(Last(log)));
    } else if b.QueueCancelled? || b.QueueConsumed? {
      ExactWithdraw(q, l, g.locals, f.state.headSeq, entries, gone, b.entryId);
    }
  }

  lemma ExactEnqueue(q: Queues, l: Locals, head: nat, entries: seq<Entry>, gone: set<string>, e: Entry)
    requires ExactFor(q, l, head, entries, gone) && e.entryId !in l.enqueued && e.enqueuedSeq == head + 1
    ensures ExactFor(q.With(e.queue, q.Of(e.queue) + [e]), l.(enqueued := l.enqueued[e.entryId := e]),
                     head + 1, entries + [e], gone)
  {
    HistorySnoc(entries, e, head);
    LocalsSnoc(l, entries, gone, e);
    ListsSnoc(q, entries, gone, e);
  }

  lemma ExactWithdraw(q: Queues, l: Locals, l': Locals, head: nat, entries: seq<Entry>, gone: set<string>, id: string)
    requires ExactFor(q, l, head, entries, gone) && id in l.enqueued
    requires l'.enqueued == l.enqueued && l'.cancelled + l'.consumed == gone + {id}
    ensures ExactFor(Withdrawn(q, l, id), l', head + 1, entries, gone + {id})
  {
    var i :| 0 <= i < |entries| && entries[i].entryId == id;
    ListsWithdrawn(q, entries, gone, entries[i]);
  }

  /** What an accepted record does to the queues and the local variables. */
  lemma StepEffect(f: Fold, r: Record)
    requires Step(f, r).Accepted?
    ensures var g, q, l, b := Step(f, r).value, f.state.queues, f.locals, r.body;
            && g.state.headSeq == r.seqNo == f.state.headSeq + 1
            && (b.QueueEnqueued? ==>
                  && b.entryId !in l.enqueued
                  && g.state.queues == q.With(b.queue, q.Of(b.queue) + [EntryOf(r)])
                  && g.locals == l.(enqueued := l.enqueued[b.entryId := EntryOf(r)]))
            && (b.QueueCancelled? || b.QueueConsumed? ==>
                  && b.entryId in l.enqueued
                  && g.state.queues == Withdrawn(q, l, b.entryId)
                  && g.locals.enqueued == l.enqueued
                  && g.locals.cancelled + g.locals.consumed == l.cancelled + l.consumed + {b.entryId})
            && (!b.QueueEnqueued? && !b.QueueCancelled? && !b.QueueConsumed? ==>
                  && g.state.queues.steer == q.steer && g.state.queues.followUp == q.followUp
                  && g.state.queues.nextRun == q.nextRun && g.locals.enqueued == l.enqueued
                  && g.locals.cancelled == l.cancelled && g.locals.consumed == l.consumed)
  {
  }

  /** At every reachable state the pending lists hold precisely the entries enqueued and
      neither cancelled nor consumed, in the order they arrived, each under its own id. */
  lemma {:induction false} QueuesExact(runId: RunId, scope: Scope, log: seq<Record>)
    requires Accepts(Fresh(runId, scope), log)
    ensures var f := After(Fresh(runId, scope), log);
            Exact(f.state.queues, f.locals, f.state.headSeq, log)
  {
    var f := Fresh(runId, scope);
    if log == [] {
      assert f.locals.enqueued == map[];
    } else {
      RunSnoc(f, log);
      QueuesExact(runId, scope, Init(log));
      ExactStep(After(f, Init(log)), After(f, log), log);
    }
  }

  // ------------------------------------------------------ after an abort

  lemma {:induction false} RemainingDistinct(entries: seq<Entry>, kind: QueueKind, gone: set<string>)
    requires DistinctIds(entries)
    ensures DistinctIds(Remaining(entries, kind, gone))
    ensures forall e :: e in Remaining(entries, kind, gone) ==> e in entries && e.queue == kind
  {
    if entries != [] {
      var init, e := Init(entries), Last(entries);
      assert forall i :: 0 <= i < |init| ==> init[i] == entries[i];
      RemainingDistinct(init, kind, gone);
      RemainingIds(init, kind, gone);
      LastIdIsNew(entries);
      DistinctSnoc(Remaining(init, kind, gone), e);
    }
  }

  lemma LastIdIsNew(entries: seq<Entry>)
    requires entries != [] && DistinctIds(entries)
    ensures Last(entries).entryId !in Ids(Init(entries))
  {
  }

  lemma DistinctSnoc(rest: seq<Entry>, e: Entry)
    requires DistinctIds(rest)
    ensures e.entryId !in Ids(rest) ==> DistinctIds(rest + [e])
  {
    assert forall i :: 0 <= i < |rest| ==> (rest + [e])[i] == rest[i] && rest[i].entryId in Ids(rest);
  }

  /** The abort's own record, once there is one, is at or before the head and never changes. */
  lemma {:induction false} AbortSeqKept(f: Fold, log: seq<Record>)
    requires Accepts(f, log)
    requires f.state.queues.abortSeq.Some? ==> f.state.queues.abortSeq.value <= f.state.headSeq
    ensures var q := After(f, log).state.queues;
            && (f.state.queues.abortSeq.Some? ==> q.abortSeq == f.state.queues.abortSeq)
            && (q.abortSeq.Some? ==> q.abortSeq.value <= After(f, log).state.headSeq)
  {
    if log != [] {
      RunSnoc(f, log);
      AbortSeqKept(f, Init(log));
      AbortSeqStep(After(f, Init(log)), Last(log));
    }
  }

  lemma AbortSeqStep(f: Fold, r: Record)
    requires Step(f, r).Accepted?
    ensures Step(f, r).value.state.headSeq == r.seqNo == f.state.headSeq + 1
    ensures Step(f, r).value.state.queues.abortSeq
            == if r.body.AbortRequested? && f.state.queues.abortSeq.None? then Some(r.seqNo)
               else f.state.queues.abortSeq
    ensures r.body.QueueEnqueued? && f.state.queues.abortSeq.Some? && f.state.queues.abortSeq.value < r.seqNo ==>
              r.body.queue == NextRun
  {
  }

  /** What each pending list is like, and the three of them together. */
  ghost predicate ListsSound(q: Queues) {
    && (forall k :: DistinctIds(q.Of(k)) && Increasing(q.Of(k)))
    && (forall k, e :: e in q.Of(k) ==> e.queue == k)
    && (forall k, other :: k != other ==> Ids(q.Of(k)) !! Ids(q.Of(other)))
  }

  /** Every pending entry is in its own list, under its id, as it was enqueued. */
  ghost predicate ListsHeld(q: Queues, l: Locals) {
    forall k, e :: e in q.Of(k) ==>
      e.queue == k && e.entryId in l.enqueued && l.enqueued[e.entryId] == e
  }

  lemma HeldDisjoint(q: Queues, l: Locals, k: QueueKind, other: QueueKind)
    requires ListsHeld(q, l) && k != other
    ensures Ids(q.Of(k)) !! Ids(q.Of(other))
  {
    forall id | id in Ids(q.Of(k)) ensures id !in Ids(q.Of(other)) {
      var i :| 0 <= i < |q.Of(k)| && q.Of(k)[i].entryId == id;
      assert q.Of(k)[i] in q.Of(k) && l.enqueued[id].queue == k;
      forall j | 0 <= j < |q.Of(other)| ensures q.Of(other)[j].entryId != id {
        assert q.Of(other)[j] in q.Of(other);
      }
    }
  }

  /** At every reachable state each pending list holds its own kind of entry, under distinct ids
      and in increasing enqueue order, and no id is in two lists. */
  lemma ReachableLists(runId: RunId, scope: Scope, log: seq<Record>)
    requires Accepts(Fresh(runId, scope), log)
    ensures ListsSound(After(Fresh(runId, scope), log).state.queues)
    ensures ListsHeld(After(Fresh(runId, scope), log).state.queues, After(Fresh(runId, scope), log).locals)
  {
    QueuesExact(runId, scope, log);
    var f := After(Fresh(runId, scope), log);
    ExactIsSound(f.state.queues, f.locals, f.state.headSeq, Enqueued(log), Gone(log));
  }

  lemma ExactIsSound(q: Queues, l: Locals, head: nat, entries: seq<Entry>, gone: set<string>)
    requires ExactFor(q, l, head, entries, gone)
    ensures ListsSound(q) && ListsHeld(q, l)
  {
    forall k
      ensures DistinctIds(q.Of(k)) && Increasing(q.Of(k))
      ensures forall e :: e in q.Of(k) ==> e in entries && e.queue == k
    {
      RemainingDistinct(entries, k, gone);
      RemainingIncreasing(entries, k, gone);
    }
    assert ListsHeld(q, l);
    forall k, other | k != other ensures Ids(q.Of(k)) !! Ids(q.Of(other)) {
      HeldDisjoint(q, l, k, other);
    }
  }

  lemma {:induction false} RemainingIncreasing(entries: seq<Entry>, kind: QueueKind, gone: set<string>)
    requires Increasing(entries)
    ensures Increasing(Remaining(entries, kind, gone))
    ensures forall e :: e in Remaining(entries, kind, gone) ==> e.enqueuedSeq <= Last(entries).enqueuedSeq
  {
    if entries != [] {
      var init, e := Init(entries), Last(entries);
      assert forall i :: 0 <= i < |init| ==> init[i] == entries[i];
      RemainingIncreasing(init, kind, gone);
      assert init != [] ==> Last(init).enqueuedSeq < e.enqueuedSeq;
      IncreasingSnoc(Remaining(init, kind, gone), e);
    }
  }

  lemma IncreasingSnoc(rest: seq<Entry>, e: Entry)
    requires Increasing(rest) && forall x :: x in rest ==> x.enqueuedSeq < e.enqueuedSeq
    ensures Increasing(rest + [e])
  {
    assert forall i :: 0 <= i < |rest| ==> (rest + [e])[i] == rest[i] && rest[i] in rest;
  }

  lemma SteerAndFollowUp(q: Queues)
    requires ListsSound(q)
    ensures DistinctIds(q.steer) && forall e :: e in q.steer ==> e.queue == Steer
    ensures DistinctIds(q.followUp) && forall e :: e in q.followUp ==> e.queue == FollowUp
  {
    assert q.Of(Steer) == q.steer && q.Of(FollowUp) == q.followUp;
  }

  /** From an abort on, nothing joins the steer or the follow-up queue: what is left in each is
      what was there, in order, less what was withdrawn since. */
  lemma {:induction false} AbortSafe(runId: RunId, scope: Scope, log: seq<Record>, later: seq<Record>)
    requires Accepts(Fresh(runId, scope), log + later)
    requires Accepts(Fresh(runId, scope), log)
    requires After(Fresh(runId, scope), log).state.queues.abortSeq.Some?
    ensures var q := After(Fresh(runId, scope), log).state.queues;
            var q' := After(Fresh(runId, scope), log + later).state.queues;
            && q'.abortSeq == q.abortSeq
            && q'.steer == Remaining(q.steer, Steer, Gone(later))
            && q'.followUp == Remaining(q.followUp, FollowUp, Gone(later))
    decreases |later|
  {
    var start := Fresh(runId, scope);
    var q := After(start, log).state.queues;
    AbortSeqKept(start, log);
    if later == [] {
      assert log + later == log;
      ReachableLists(runId, scope, log);
      SteerAndFollowUp(q);
      RemainingAll(q.steer, Steer);
      RemainingAll(q.followUp, FollowUp);
    } else {
      var r, earlier := Last(later), log + Init(later);
      assert Init(log + later) == earlier && Last(log + later) == r;
      RunSnoc(start, log + later);
      AbortSafe(runId, scope, log, Init(later));
      ReachableLists(runId, scope, log);
      ReachableLists(runId, scope, earlier);
      AbortSeqKept(start, earlier);
      AbortSeqStep(After(start, earlier), r);
      StepEffect(After(start, earlier), r);
      HistoryStep(later);
      if r.body.QueueCancelled? || r.body.QueueConsumed? {
        WithdrawnSince(q, After(start, earlier), Gone(Init(later)), r.body.entryId);
      }
    }
  }

  lemma WithdrawnSince(q: Queues, f: Fold, gone: set<string>, id: string)
    requires ListsSound(q) && id in f.locals.enqueued
    requires f.state.queues.steer == Remaining(q.steer, Steer, gone)
    requires f.state.queues.followUp == Remaining(q.followUp, FollowUp, gone)
    requires ListsHeld(f.state.queues, f.locals)
    ensures Withdrawn(f.state.queues, f.locals, id).steer == Remaining(q.steer, Steer, gone + {id})
    ensures Withdrawn(f.state.queues, f.locals, id).followUp == Remaining(q.followUp, FollowUp, gone + {id})
  {
    SteerAndFollowUp(q);
    RemainingWithout(q.steer, Steer, gone, id);
    RemainingWithout(q.followUp, FollowUp, gone, id);
    forall k | k != f.locals.enqueued[id].queue
      ensures RemoveEntry(f.state.queues.Of(k), id) == f.state.queues.Of(k)
    {
      assert forall e :: e in f.state.queues.Of(k) ==> e.entryId != id;
      RemoveAbsent(f.state.queues.Of(k), id);
    }
    assert f.state.queues.Of(Steer) == f.state.queues.steer && f.state.queues.Of(FollowUp) == f.state.queues.followUp;
  }

  lemma RemainingAll(q: seq<Entry>, kind: QueueKind)
    ensures (forall e :: e in q ==> e.queue == kind) ==> Remaining(q, kind, {}) == q
  {
    if forall e :: e in q ==> e.queue == kind {
      assert forall i :: 0 <= i < |q| ==> q[i] in q;
      AllRemain(q, kind);
    }
  }

  lemma {:induction false} AllRemain(q: seq<Entry>, kind: QueueKind)
    requires forall i :: 0 <= i < |q| ==> q[i].queue == kind
    ensures Remaining(q, kind, {}) == q
  {
    if q != [] {
      assert forall i :: 0 <= i < |Init(q)| ==> Init(q)[i] == q[i];
      AllRemain(Init(q), kind);
      assert Last(q) == q[|q| - 1];
      assert q == Init(q) + [Last(q)];
    }
  }
}
