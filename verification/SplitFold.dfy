/** Folding a log in two parts, through the state in between, against folding it whole.

    A continued fold knows the settled calls from the results it carries, but knows only
    the queue entries still pending: an id withdrawn before the cut is forgotten. */
module SplitFold {
  import opened Values
  import opened Records
  import opened Reducer
  import opened PendingQueues

  // ------------------------------------------------------- call book-keeping

  function ResultIds(results: seq<ToolResult>): set<CallId> {
    set i | 0 <= i < |results| :: results[i].callId
  }

  /** The calls ever started are the open ones and, apart from them, the ones with a result. */
  predicate CallsKnown(c: Calls, l: Locals) {
    && l.settled == ResultIds(c.results)
    && l.started == c.open.Keys + l.settled
    && c.open.Keys !! l.settled
  }

  lemma ResultIdsSnoc(results: seq<ToolResult>, t: ToolResult)
    ensures ResultIds(results + [t]) == ResultIds(results) + {t.callId}
  {
    assert forall i :: 0 <= i < |results| ==> (results + [t])[i] == results[i];
    assert (results + [t])[|results|] == t;
    forall id | id in ResultIds(results)
      ensures id in ResultIds(results + [t])
    {
      var i :| 0 <= i < |results| && results[i].callId == id;
      assert (results + [t])[i].callId == id;
    }
  }

  /** What an accepted record does to the open calls and the results. */
  lemma CallEffect(f: Fold, r: Record)
    requires Step(f, r).Accepted?
    ensures var c, c', b := f.state.calls, Step(f, r).value.state.calls, r.body;
            var l, l' := f.locals, Step(f, r).value.locals;
            && (b.ToolCallStarted? ==>
                  && b.callId !in l.started
                  && c'.open.Keys == c.open.Keys + {b.callId} && c'.results == c.results
                  && l'.started == l.started + {b.callId} && l'.settled == l.settled)
            && (b.ToolCallFinished? ==>
                  && b.callId in c.open
                  && c'.open == c.open - {b.callId}
                  && |c'.results| == |c.results| + 1 && Init(c'.results) == c.results
                  && Last(c'.results).callId == b.callId
                  && l'.started == l.started && l'.settled == l.settled + {b.callId})
            && (!b.ToolCallStarted? && !b.ToolCallFinished? ==>
                  c' == c && l'.started == l.started && l'.settled == l.settled)
  {
  }

  lemma CallsKnownStep(f: Fold, r: Record)
    requires CallsKnown(f.state.calls, f.locals) && Step(f, r).Accepted?
    ensures CallsKnown(Step(f, r).value.state.calls, Step(f, r).value.locals)
  {
    CallEffect(f, r);
    if r.body.ToolCallFinished? {
      var results := Step(f, r).value.state.calls.results;
      ResultIdsSnoc(f.state.calls.results, Last(results));
      assert results == f.state.calls.results + [Last(results)];
    }
  }

  lemma {:induction false} CallsKnownAlways(f: Fold, log: seq<Record>)
    requires CallsKnown(f.state.calls, f.locals) && Accepts(f, log)
    ensures CallsKnown(After(f, log).state.calls, After(f, log).locals)
  {
    if log != [] {
      RunSnoc(f, log);
      CallsKnownAlways(f, Init(log));
      CallsKnownStep(After(f, Init(log)), Last(log));
    }
  }

  // ------------------------------------------------------ the two folds side by side

  /** The locals of a whole fold and of a continued one, when `gone` was withdrawn before the cut. */
  ghost predicate Alike(whole: Locals, cont: Locals, gone: set<string>) {
    && whole.started == cont.started
    && whole.settled == cont.settled
    && whole.enqueued.Keys == cont.enqueued.Keys + gone
    && cont.enqueued.Keys !! gone
    && (forall id :: id in cont.enqueued ==> whole.enqueued[id] == cont.enqueued[id])
    && gone <= whole.cancelled + whole.consumed
    && whole.cancelled - gone == cont.cancelled
    && whole.consumed - gone == cont.consumed
  }

  /** Whether a record enqueues an id that was withdrawn before the cut. */
  predicate Reuses(r: Record, gone: set<string>) {
    r.body.QueueEnqueued? && r.body.entryId in gone
  }

  lemma AlikeCheck(f: Fold, g: Fold, gone: set<string>, r: Record)
    requires f.state == g.state && Alike(f.locals, g.locals, gone) && !Reuses(r, gone)
    ensures Check(f, r) == Check(g, r)
  {
  }

  lemma AlikeLocals(l: Locals, m: Locals, gone: set<string>, r: Record)
    requires Alike(l, m, gone) && !Reuses(r, gone)
    requires r.body.QueueCancelled? || r.body.QueueConsumed? ==> r.body.entryId in m.enqueued
    ensures Alike(LocalsStep(l, r), LocalsStep(m, r), gone)
  {
  }

  lemma AlikeQueues(q: Queues, l: Locals, m: Locals, gone: set<string>, r: Record)
    requires Alike(l, m, gone)
    requires r.body.QueueCancelled? || r.body.QueueConsumed? ==> r.body.entryId in m.enqueued
    ensures QueuesStep(q, l, r) == QueuesStep(q, m, r)
  {
  }

  /** One record, folded both ways, is refused for the same reason or keeps the folds alike. */
  lemma AlikeStep(f: Fold, g: Fold, gone: set<string>, r: Record)
    requires f.state == g.state && Alike(f.locals, g.locals, gone) && !Reuses(r, gone)
    ensures Step(f, r).Accepted? ==>
              && Step(g, r).Accepted? && Step(g, r).value.state == Step(f, r).value.state
              && Alike(Step(f, r).value.locals, Step(g, r).value.locals, gone)
    ensures !Step(f, r).Accepted? ==> Step(g, r) == Step(f, r)
  {
    AlikeCheck(f, g, gone, r);
    if Step(f, r).Accepted? {
      Withdrawable(f, gone, g.locals, r);
      AlikeLocals(f.locals, g.locals, gone, r);
      AlikeQueues(f.state.queues, f.locals, g.locals, gone, r);
    }
  }

  lemma Withdrawable(f: Fold, gone: set<string>, m: Locals, r: Record)
    requires Step(f, r).Accepted? && Alike(f.locals, m, gone)
    ensures r.body.QueueCancelled? || r.body.QueueConsumed? ==> r.body.entryId in m.enqueued
  {
  }

  /** A reused id: the whole fold refuses it, the continued one does not know why it should. */
  lemma ReusedStep(f: Fold, g: Fold, gone: set<string>, r: Record)
    requires f.state == g.state && Alike(f.locals, g.locals, gone) && Reuses(r, gone)
    ensures Step(f, r).Refused?
    ensures Step(g, r) != Step(f, r) ==> Step(f, r) == Refused(ProvisionedEntryMismatch, r.seqNo)
    ensures Step(f, r) == Refused(ProvisionedEntryMismatch, r.seqNo) ==> Step(g, r).Accepted?
  {
  }

  // --------------------------------------------------------------- at the cut

  lemma {:induction false} ByIdIs(q: seq<Entry>)
    ensures ById(q).Keys == Ids(q)
    ensures DistinctIds(q) ==> forall i :: 0 <= i < |q| ==> ById(q)[q[i].entryId] == q[i]
  {
    if q != [] {
      ByIdIs(Init(q));
      IdsSnoc(Init(q), Last(q));
      assert q == Init(q) + [Last(q)];
      if DistinctIds(q) {
        forall i | 0 <= i < |q|
          ensures ById(q)[q[i].entryId] == q[i]
        {
          if i < |q| - 1 {
            assert Init(q)[i] == q[i];
          }
        }
      }
    }
  }

  /** The pending entries, by id: the enqueued ones that are not gone. */
  lemma PendingFor(q: Queues, l: Locals, head: nat, entries: seq<Entry>, gone: set<string>)
    requires ExactFor(q, l, head, entries, gone)
    ensures PendingById(q).Keys == l.enqueued.Keys - gone
    ensures forall id :: id in PendingById(q) ==> id in l.enqueued && PendingById(q)[id] == l.enqueued[id]
  {
    var all := q.steer + q.followUp + q.nextRun;
    ByIdIs(all);
    PendingIds(q, entries, gone);
    ListedEntries(q, l, entries, gone);
    AllDistinct(l, q);
    forall id | id in Ids(all)
      ensures id in l.enqueued && ById(all)[id] == l.enqueued[id]
    {
      var i :| 0 <= i < |all| && all[i].entryId == id;
      assert all[i] in q.steer || all[i] in q.followUp || all[i] in q.nextRun;
    }
  }

  lemma PendingIds(q: Queues, entries: seq<Entry>, gone: set<string>)
    requires ListsFor(q, entries, gone)
    ensures Ids(q.steer + q.followUp + q.nextRun) == Ids(entries) - gone
  {
    var all := q.steer + q.followUp + q.nextRun;
    forall id | id in Ids(all)
      ensures id in Ids(entries) && id !in gone
    {
      var i :| 0 <= i < |all| && all[i].entryId == id;
      ListedIsPending(entries, gone, q, all[i]);
    }
    forall id | id in Ids(entries) && id !in gone
      ensures id in Ids(all)
    {
      var i :| 0 <= i < |entries| && entries[i].entryId == id;
      PendingIsListed(entries, gone, q, entries[i]);
    }
  }

  /** Every listed entry stands under its own queue and its own id. */
  lemma ListedEntries(q: Queues, l: Locals, entries: seq<Entry>, gone: set<string>)
    requires ListsFor(q, entries, gone) && LocalsFor(l, entries, gone) && DistinctIds(entries)
    ensures DistinctIds(q.steer) && DistinctIds(q.followUp) && DistinctIds(q.nextRun)
    ensures forall e :: e in q.steer ==> e.queue == Steer && e.entryId in l.enqueued && l.enqueued[e.entryId] == e
    ensures forall e :: e in q.followUp ==> e.queue == FollowUp && e.entryId in l.enqueued && l.enqueued[e.entryId] == e
    ensures forall e :: e in q.nextRun ==> e.queue == NextRun && e.entryId in l.enqueued && l.enqueued[e.entryId] == e
  {
    RemainingDistinct(entries, Steer, gone);
    RemainingDistinct(entries, FollowUp, gone);
    RemainingDistinct(entries, NextRun, gone);
    assert forall e :: e in entries ==> e.entryId in l.enqueued && l.enqueued[e.entryId] == e;
  }

  lemma ListedIsPending(entries: seq<Entry>, gone: set<string>, q: Queues, e: Entry)
    requires ListsFor(q, entries, gone) && e in q.steer + q.followUp + q.nextRun
    ensures e.entryId in Ids(entries) && e.entryId !in gone
  {
    forall k
      ensures e in q.Of(k) ==> e.entryId in Ids(entries) && e.entryId !in gone
    {
      RemainingIds(entries, k, gone);
      if e in q.Of(k) {
        var i :| 0 <= i < |q.Of(k)| && q.Of(k)[i] == e;
        assert e.entryId in Ids(q.Of(k));
      }
    }
    assert e in q.Of(Steer) || e in q.Of(FollowUp) || e in q.Of(NextRun);
  }

  lemma PendingIsListed(entries: seq<Entry>, gone: set<string>, q: Queues, e: Entry)
    requires ListsFor(q, entries, gone) && e in entries && e.entryId !in gone
    ensures e.entryId in Ids(q.steer + q.followUp + q.nextRun)
  {
    RemainingIds(entries, e.queue, gone);
    var all := q.steer + q.followUp + q.nextRun;
    assert e.entryId in Ids(q.Of(e.queue));
    var i :| 0 <= i < |q.Of(e.queue)| && q.Of(e.queue)[i].entryId == e.entryId;
    assert q.Of(e.queue)[i] in all;
    var j :| 0 <= j < |all| && all[j] == q.Of(e.queue)[i];
  }

  lemma AllDistinct(l: Locals, q: Queues)
    requires DistinctIds(q.steer) && DistinctIds(q.followUp) && DistinctIds(q.nextRun)
    requires forall e :: e in q.steer ==> e.queue == Steer && e.entryId in l.enqueued && l.enqueued[e.entryId] == e
    requires forall e :: e in q.followUp ==>
               e.queue == FollowUp && e.entryId in l.enqueued && l.enqueued[e.entryId] == e
    requires forall e :: e in q.nextRun ==> e.queue == NextRun && e.entryId in l.enqueued && l.enqueued[e.entryId] == e
    ensures DistinctIds(q.steer + q.followUp + q.nextRun)
  {
  }

  /** At the cut, the locals a continuation starts with are like those of the whole fold. */
  lemma AlikeAtCut(runId: RunId, scope: Scope, log: seq<Record>)
    requires Accepts(Fresh(runId, scope), log)
    ensures var f := After(Fresh(runId, scope), log);
            Alike(f.locals, LocalsOf(f.state), Gone(log))
  {
    var start := Fresh(runId, scope);
    var f := After(start, log);
    QueuesExact(runId, scope, log);
    PendingFor(f.state.queues, f.locals, f.state.headSeq, Enqueued(log), Gone(log));
    FreshCallsKnown(runId, scope);
    CallsKnownAlways(start, log);
  }

  lemma FreshCallsKnown(runId: RunId, scope: Scope)
    ensures CallsKnown(Fresh(runId, scope).state.calls, Fresh(runId, scope).locals)
  {
  }

  // ------------------------------------------------------------ split folding

  /** Alike folds stay alike over any suffix that reuses no withdrawn id. */
  lemma {:induction false} AlikeRun(f: Fold, g: Fold, gone: set<string>, log: seq<Record>)
    requires f.state == g.state && Alike(f.locals, g.locals, gone)
    requires forall i :: 0 <= i < |log| ==> !Reuses(log[i], gone)
    ensures Accepts(f, log) ==>
              && Accepts(g, log) && After(g, log).state == After(f, log).state
              && Alike(After(f, log).locals, After(g, log).locals, gone)
    ensures !Accepts(f, log) ==> Run(g, log) == Run(f, log)
  {
    if log != [] {
      AlikeRun(f, g, gone, Init(log));
      if Accepts(f, Init(log)) {
        AlikeStep(After(f, Init(log)), After(g, Init(log)), gone, Last(log));
      }
    }
  }

  /** Folding a suffix onto the fold of the prefix is folding the whole log, refusals included,
      when the suffix enqueues no id that the prefix had enqueued and withdrawn. */
  lemma SplitFolding(runId: RunId, scope: Scope, prefix: seq<Record>, suffix: seq<Record>)
    requires Accepts(Fresh(runId, scope), prefix)
    requires forall i :: 0 <= i < |suffix| ==> !Reuses(suffix[i], Gone(prefix))
    ensures Finished(Run(StartFrom(After(Fresh(runId, scope), prefix).state), suffix))
            == Finished(Run(Fresh(runId, scope), prefix + suffix))
  {
    var start := Fresh(runId, scope);
    var f := After(start, prefix);
    AlikeAtCut(runId, scope, prefix);
    RunConcat(start, prefix, suffix);
    AlikeRun(f, StartFrom(f.state), Gone(prefix), suffix);
  }

  /** An accepted whole fold has reused no withdrawn id. */
  lemma {:induction false} NoReuse(f: Fold, g: Fold, gone: set<string>, log: seq<Record>)
    requires f.state == g.state && Alike(f.locals, g.locals, gone) && Accepts(f, log)
    ensures forall i :: 0 <= i < |log| ==> !Reuses(log[i], gone)
  {
    if log != [] {
      RunSnoc(f, log);
      NoReuse(f, g, gone, Init(log));
      AlikeRun(f, g, gone, Init(log));
      if Reuses(Last(log), gone) {
        ReusedStep(After(f, Init(log)), After(g, Init(log)), gone, Last(log));
        assert false;
      }
      assert forall i :: 0 <= i < |Init(log)| ==> Init(log)[i] == log[i];
    }
  }

  lemma SplitAccepted(runId: RunId, scope: Scope, log: seq<Record>, n: nat)
    requires n <= |log| && Accepts(Fresh(runId, scope), log)
    ensures var start := Fresh(runId, scope);
            && Accepts(start, log[..n])
            && Finished(Run(StartFrom(After(start, log[..n]).state), log[n..])) == Finished(Run(start, log))
  {
    var start := Fresh(runId, scope);
    AcceptsPrefix(start, log, n);
    AlikeAtCut(runId, scope, log[..n]);
    SuffixAccepted(After(start, log[..n]), Gone(log[..n]), log[n..]);
  }

  /** What the fold it came from accepts, the continued fold accepts with the same state. */
  lemma SuffixAccepted(f: Fold, gone: set<string>, suffix: seq<Record>)
    requires Alike(f.locals, LocalsOf(f.state), gone) && Accepts(f, suffix)
    ensures Finished(Run(StartFrom(f.state), suffix)) == Finished(Run(f, suffix))
  {
    NoReuse(f, StartFrom(f.state), gone, suffix);
    AlikeRun(f, StartFrom(f.state), gone, suffix);
  }

  /** An accepted log is accepted in two parts, whatever the cut, and the parts fold to the same
      state; in particular every non-empty prefix of it is accepted. */
  lemma ReduceSplit(log: seq<Record>, n: nat, runId: Option<RunId>)
    requires 0 < n <= |log| && Reduce(log, runId, None).Accepted?
    ensures Reduce(log[..n], runId, None).Accepted?
    ensures var prior := Reduce(log[..n], runId, None).value;
            && Reduce(log[n..], None, Some(prior)) == Reduce(log, runId, None)
            && Reduce(log[n..], Some(prior.runId), Some(prior)) == Reduce(log, runId, None)
  {
    var id := if runId.Some? then runId.value else log[0].runId;
    assert log[..n][0] == log[0];
    SplitAccepted(id, log[0].scope, log, n);
  }

  // ----------------------------------------- where the two folds part company

  /** A record that only the whole fold can refuse: it enqueues an id withdrawn before the cut,
      in its turn, in an unsettled run, and no abort bars it. */
  predicate Slips(s: State, gone: set<string>, r: Record) {
    && Reuses(r, gone)
    && r.runId == s.runId && r.scope.tenant == s.scope.tenant
    && r.seqNo == s.headSeq + 1
    && !s.life.settled
    && (r.body.queue == NextRun || s.queues.abortSeq.None? || r.seqNo <= s.queues.abortSeq.value)
  }

  lemma SlipsIs(f: Fold, gone: set<string>, r: Record)
    requires gone <= f.locals.enqueued.Keys && Reuses(r, gone)
    ensures Slips(f.state, gone, r) <==> Step(f, r) == Refused(ProvisionedEntryMismatch, r.seqNo)
  {
  }

  /** A queue mismatch is only ever found at the record that comes next. */
  lemma {:induction false} MismatchSeq(f: Fold, log: seq<Record>, n: nat)
    requires Run(f, log) == Refused(ProvisionedEntryMismatch, n)
    ensures n > f.state.headSeq
  {
    if Accepts(f, Init(log)) {
      Numbered(f, Init(log));
      MismatchStep(After(f, Init(log)), Last(log));
    } else {
      MismatchSeq(f, Init(log), n);
    }
  }

  lemma MismatchStep(f: Fold, r: Record)
    requires Step(f, r).Refused? && Step(f, r).reason == ProvisionedEntryMismatch
    ensures r.seqNo == f.state.headSeq + 1
  {
  }

  /** Whether a suffix slips past the continued fold before the whole fold refuses anything. */
  predicate SlipsIn(f: Fold, gone: set<string>, suffix: seq<Record>) {
    suffix != [] &&
    (|| SlipsIn(f, gone, Init(suffix))
     || (Accepts(f, Init(suffix)) && Slips(After(f, Init(suffix)).state, gone, Last(suffix))))
  }

  /** The two folds answer differently exactly when, before anything is refused, the suffix
      enqueues an id withdrawn before the cut and nothing else stands in its way. */
  lemma SplitExactly(runId: RunId, scope: Scope, prefix: seq<Record>, suffix: seq<Record>)
    requires Accepts(Fresh(runId, scope), prefix)
    ensures var start := Fresh(runId, scope);
            Finished(Run(StartFrom(After(start, prefix).state), suffix)) != Finished(Run(start, prefix + suffix))
            <==> SlipsIn(After(start, prefix), Gone(prefix), suffix)
  {
    var start := Fresh(runId, scope);
    var f := After(start, prefix);
    AlikeAtCut(runId, scope, prefix);
    RunConcat(start, prefix, suffix);
    PartWays(f, StartFrom(f.state), Gone(prefix), suffix);
  }

  lemma PartWays(f: Fold, g: Fold, gone: set<string>, log: seq<Record>)
    requires f.state == g.state && Alike(f.locals, g.locals, gone)
    ensures Finished(Run(g, log)) != Finished(Run(f, log)) <==> SlipsIn(f, gone, log)
  {
    SideBySide(f, g, gone, log);
    if SlipsIn(f, gone, log) {
      PartedDiffer(f, g, log);
    }
  }

  lemma {:induction false} SideBySide(f: Fold, g: Fold, gone: set<string>, log: seq<Record>)
    requires f.state == g.state && Alike(f.locals, g.locals, gone)
    ensures SlipsIn(f, gone, log) ==> !Accepts(f, log) && Parted(f, g, log)
    ensures !SlipsIn(f, gone, log) && !Accepts(f, log) ==> Run(g, log) == Run(f, log)
    ensures !SlipsIn(f, gone, log) && Accepts(f, log) ==>
              && Accepts(g, log) && After(g, log).state == After(f, log).state
              && Alike(After(f, log).locals, After(g, log).locals, gone)
  {
    if log != [] {
      SideBySide(f, g, gone, Init(log));
      if SlipsIn(f, gone, Init(log)) {
        PartedOn(f, g, log);
      } else if Accepts(f, Init(log)) {
        SideBySideStep(After(f, Init(log)), After(g, Init(log)), gone, Last(log));
        if Slips(After(f, Init(log)).state, gone, Last(log)) {
          assert log[..|log|] == log;
          assert PartedAt(f, g, log, |log|);
        }
      }
    }
  }

  lemma SideBySideStep(f: Fold, g: Fold, gone: set<string>, r: Record)
    requires f.state == g.state && Alike(f.locals, g.locals, gone)
    ensures Slips(f.state, gone, r) ==>
              Step(f, r) == Refused(ProvisionedEntryMismatch, r.seqNo) && Step(g, r).Accepted?
              && Step(g, r).value.state.headSeq == r.seqNo
    ensures !Slips(f.state, gone, r) && Step(f, r).Accepted? ==>
              && Step(g, r).Accepted? && Step(g, r).value.state == Step(f, r).value.state
              && Alike(Step(f, r).value.locals, Step(g, r).value.locals, gone)
    ensures !Slips(f.state, gone, r) && !Step(f, r).Accepted? ==> Step(g, r) == Step(f, r)
  {
    if Reuses(r, gone) {
      ReusedStep(f, g, gone, r);
      SlipsIs(f, gone, r);
      HeadMoves(g, r);
    } else {
      AlikeStep(f, g, gone, r);
    }
  }

  lemma HeadMoves(f: Fold, r: Record)
    ensures Step(f, r).Accepted? ==> Step(f, r).value.state.headSeq == r.seqNo
  {
  }

  /** The whole fold stopped at a queue mismatch that the continued one has gone past. */
  ghost predicate Parted(f: Fold, g: Fold, log: seq<Record>) {
    exists n :: 0 < n <= |log| && PartedAt(f, g, log, n)
  }

  ghost predicate PartedAt(f: Fold, g: Fold, log: seq<Record>, n: nat)
    requires n <= |log|
  {
    && Run(f, log).Refused? && Run(f, log).reason == ProvisionedEntryMismatch
    && Accepts(g, log[..n]) && After(g, log[..n]).state.headSeq == Run(f, log).seqNo
  }

  lemma PartedOn(f: Fold, g: Fold, log: seq<Record>)
    requires log != [] && !Accepts(f, Init(log)) && Parted(f, g, Init(log))
    ensures Parted(f, g, log)
  {
    var n :| 0 < n <= |Init(log)| && PartedAt(f, g, Init(log), n);
    assert log[..n] == Init(log)[..n];
    assert PartedAt(f, g, log, n);
  }

  lemma PartedDiffer(f: Fold, g: Fold, log: seq<Record>)
    requires Parted(f, g, log)
    ensures Finished(Run(g, log)) != Finished(Run(f, log))
  {
    var n :| 0 < n <= |log| && PartedAt(f, g, log, n);
    assert log == log[..n] + log[n..];
    RunConcat(g, log[..n], log[n..]);
    if Run(g, log) == Run(f, log) {
      MismatchSeq(After(g, log[..n]), log[n..], Run(f, log).seqNo);
    }
  }
}
