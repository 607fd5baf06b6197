/** A compaction cut at a turn boundary leaves a conversation a provider accepts: one summary,
    then the projection of what came later, each tool answer after the message that asked. */
module Pairing {
  import opened Values
  import opened Records
  import opened Reducer
  import opened CallHistory
  import opened Conversation
  import opened ThreadView
  import opened Compacting
  import opened Rendering

  /** No turn starts after index `j` up to and including index `i`. */
  predicate SameTurn(log: seq<Record>, j: int, i: int)
    requires 0 <= i < |log|
  {
    0 <= j < i && forall m :: j < m <= i ==> !log[m].body.TurnStarted?
  }

  /** Whether the record at `j` is the assistant's message listing a call. */
  predicate Lists(log: seq<Record>, j: nat, id: CallId)
    requires j < |log|
  {
    log[j].body.ModelCallFinished? && id in log[j].body.toolCalls
  }

  /** The writers' discipline: a call ends in the turn it started in; a call the model made was
      listed by the model earlier in that turn, and is listed by no other turn. */
  ghost predicate Disciplined(log: seq<Record>) {
    forall i :: 0 <= i < |log| && log[i].body.ToolCallFinished? ==>
      EndsInTurn(log, i) && (!ProgramMade(log, log[i].body.callId) ==> ListedInTurn(log, i))
  }

  ghost predicate EndsInTurn(log: seq<Record>, i: nat)
    requires i < |log| && log[i].body.ToolCallFinished?
  {
    forall s :: 0 <= s < |log| && log[s].body.ToolCallStarted? && log[s].body.callId == log[i].body.callId ==>
      SameTurn(log, s, i)
  }

  ghost predicate ListedInTurn(log: seq<Record>, i: nat)
    requires i < |log| && log[i].body.ToolCallFinished?
  {
    && (exists j :: 0 <= j < i && Lists(log, j, log[i].body.callId) && SameTurn(log, j, i))
    && forall j :: 0 <= j < |log| && Lists(log, j, log[i].body.callId) ==> SameTurn(log, j, i)
  }

  /** Some message before position `k` is an assistant's that lists the call. */
  predicate Asked(messages: seq<Message>, k: nat, id: CallId)
    requires k <= |messages|
  {
    exists j :: 0 <= j < k && messages[j].Assistant? && exists c :: c in messages[j].toolCalls && c.id == id
  }

  /** Every tool answer answers a call that an earlier assistant message lists. */
  predicate Paired(messages: seq<Message>) {
    forall k :: 0 <= k < |messages| && messages[k].ToolAnswer? ==> Asked(messages, k, messages[k].callId)
  }

  // ------------------------------------------------- the projection above a cut

  /** Records at or below the boundary emit nothing. */
  lemma {:induction false} NothingBelow(p: Printer, all: seq<Record>, boundary: nat, n: nat)
    requires InSequence(all) && n <= boundary && n <= |all|
    ensures Emitted(p, all, boundary, n) == []
  {
    if n > 0 {
      NothingBelow(p, all, boundary, n - 1);
    }
  }

  /** The messages of the records at indices `from` up to `end`. */
  function Later(p: Printer, all: seq<Record>, boundary: nat, from: nat, end: nat): seq<Message>
    requires from <= end <= |all|
    decreases end
  {
    if from == end then [] else Later(p, all, boundary, from, end - 1) + MessagesAt(p, all, boundary, end - 1)
  }

  lemma {:induction false} EmittedIsLater(p: Printer, all: seq<Record>, boundary: nat, n: nat)
    requires InSequence(all) && boundary <= n <= |all|
    ensures Emitted(p, all, boundary, n) == Later(p, all, boundary, boundary, n)
  {
    if n == boundary {
      NothingBelow(p, all, boundary, n);
    } else {
      EmittedIsLater(p, all, boundary, n - 1);
    }
  }

  /** After a compaction at the planned cut the conversation is one summary message and exactly
      the projection of the records after the cut. */
  lemma SummaryThenLater(p: Printer, log: seq<Record>, keep: nat, c: Record)
    requires InSequence(log + [c]) && keep > 0 && c.body.CompactionApplied?
    requires PlanCut(log, Boundary(log), keep) == Some(c.body.replacedToSeq as int)
    ensures var all, cut := log + [c], c.body.replacedToSeq;
            && cut < |log| && log[cut].body.TurnStarted?
            && Boundary(all) == cut
            && ConversationOf(p, all) == [User(SummaryText(p, all))] + Later(p, all, cut, cut, |log|)
            && Compactions(all) == Compactions(log) + [c]
  {
    var all, cut := log + [c], c.body.replacedToSeq;
    assert forall i :: 0 <= i < |log| ==> log[i] == all[i];
    PlanCutMeans(log, Boundary(log), keep);
    Snoc(log, c);
    assert Init(all) == log && Last(all) == c;
    ConversationAbove(p, all, cut);
    LaterWithoutLast(p, log, c, cut);
  }

  lemma ConversationAbove(p: Printer, all: seq<Record>, cut: nat)
    requires InSequence(all) && cut <= |all| && Boundary(all) == cut && Compactions(all) != []
    ensures ConversationOf(p, all) == [User(SummaryText(p, all))] + Later(p, all, cut, cut, |all|)
  {
    EmittedIsLater(p, all, cut, |all|);
  }

  lemma LaterWithoutLast(p: Printer, log: seq<Record>, c: Record, cut: nat)
    requires c.body.CompactionApplied? && cut <= |log|
    ensures Later(p, log + [c], cut, cut, |log + [c]|) == Later(p, log + [c], cut, cut, |log|)
  {
    assert (log + [c])[|log|] == c;
    assert MessagesAt(p, log + [c], cut, |log|) == [];
  }

  // ------------------------------------------------------------------ pairing

  /** What acceptance gives the pairing: a finish above the cut finds its start, if it is above. */
  lemma StartsAboveCut(log: seq<Record>, cut: nat, i: nat)
    requires InSequence(log) && cut <= i < |log| && log[i].body.ToolCallFinished?
    requires AtTurn(log, cut) && FindsStart(log, cut, i) && EndsInTurn(log, i)
    ensures StartAbove(log[..i], cut, log[i].body.callId) == StartOf(log, log[i].body.callId)
  {
    var id := log[i].body.callId;
    StartOfIs(log, id);
    var s :| 0 <= s < |log| && log[s] == StartOf(log, id).value;
    assert SameTurn(log, s, i);
  }

  /** The part before a record, what the record adds, and the part after. */
  lemma {:induction false} LaterParts(p: Printer, all: seq<Record>, boundary: nat, from: nat, end: nat, j: nat)
    requires from <= j < end <= |all|
    ensures Later(p, all, boundary, from, end)
            == Later(p, all, boundary, from, j)
               + (MessagesAt(p, all, boundary, j) + Later(p, all, boundary, j + 1, end))
    decreases end
  {
    if j < end - 1 {
      LaterParts(p, all, boundary, from, end - 1, j);
      Reassociate(Later(p, all, boundary, from, j), MessagesAt(p, all, boundary, j),
                  Later(p, all, boundary, j + 1, end - 1), MessagesAt(p, all, boundary, end - 1));
    } else {
      assert MessagesAt(p, all, boundary, j) + [] == MessagesAt(p, all, boundary, j);
    }
  }

  lemma Reassociate<T>(a: seq<T>, b: seq<T>, c: seq<T>, d: seq<T>)
    ensures (a + (b + c)) + d == a + (b + (c + d))
  {
  }

  /** A listed call is asked for from the listing message on. */
  lemma ListedIsAsked(p: Printer, all: seq<Record>, cut: nat, end: nat, j: nat, id: CallId)
    requires InSequence(all) && cut <= j < end <= |all| && Lists(all, j, id)
    ensures Asked(Later(p, all, cut, cut, end), |Later(p, all, cut, cut, end)|, id)
  {
    var b := all[j].body;
    var asked := Assistant(b.text, ToolCallsOf(all, b.toolCalls));
    assert MessagesAt(p, all, cut, j) == [asked];
    LaterParts(p, all, cut, cut, end, j);
    assert Later(p, all, cut, cut, end)[|Later(p, all, cut, cut, j)|] == asked;
    var i :| 0 <= i < |b.toolCalls| && b.toolCalls[i] == id;
    assert asked.toolCalls[i].id == id && asked.toolCalls[i] in asked.toolCalls;
  }

  lemma AskedStays(messages: seq<Message>, more: seq<Message>, k: nat, id: CallId)
    requires k <= |messages| && Asked(messages, k, id)
    ensures Asked(messages + more, k, id)
  {
    var j :| 0 <= j < k && messages[j].Assistant? && exists c :: c in messages[j].toolCalls && c.id == id;
    assert (messages + more)[j] == messages[j];
  }

  /** What one record adds keeps the later messages paired. */
  lemma AnswerIsPaired(p: Printer, all: seq<Record>, cut: nat, i: nat)
    requires InSequence(all) && cut <= i < |all| && AtTurn(all, cut) && Disciplined(all)
    requires all[i].body.ToolCallFinished? ==> FindsStart(all, cut, i)
    requires Paired(Later(p, all, cut, cut, i))
    ensures Paired(Later(p, all, cut, cut, i + 1))
  {
    var earlier, added := Later(p, all, cut, cut, i), MessagesAt(p, all, cut, i);
    var messages: seq<Message> := earlier + added;
    forall k | 0 <= k < |messages| && messages[k].ToolAnswer?
      ensures Asked(messages, k, messages[k].callId)
    {
      if k < |earlier| {
        AskedStays(earlier, added, k, earlier[k].callId);
      } else {
        AnsweredWasAsked(p, all, cut, i);
        AskedStays(earlier, added, |earlier|, all[i].body.callId);
      }
    }
  }

  lemma AnsweredWasAsked(p: Printer, all: seq<Record>, cut: nat, i: nat)
    requires InSequence(all) && cut <= i < |all| && AtTurn(all, cut) && Disciplined(all)
    requires all[i].body.ToolCallFinished? ==> FindsStart(all, cut, i)
    requires exists m :: m in MessagesAt(p, all, cut, i) && m.ToolAnswer?
    ensures all[i].body.ToolCallFinished? && MessagesAt(p, all, cut, i)[0].ToolAnswer?
    ensures |MessagesAt(p, all, cut, i)| == 1 && MessagesAt(p, all, cut, i)[0].callId == all[i].body.callId
    ensures Asked(Later(p, all, cut, cut, i), |Later(p, all, cut, cut, i)|, all[i].body.callId)
  {
    var id := all[i].body.callId;
    StartsAboveCut(all, cut, i);
    assert !ProgramMade(all, id);
    var j :| 0 <= j < i && Lists(all, j, id) && SameTurn(all, j, i);
    ListedIsAsked(p, all, cut, i, j, id);
  }

  /** The record at `i` leaves the later messages as paired as it found them. */
  ghost predicate KeepsPaired(p: Printer, all: seq<Record>, cut: nat, i: nat)
    requires cut <= i < |all|
  {
    Paired(Later(p, all, cut, cut, i)) ==> Paired(Later(p, all, cut, cut, i + 1))
  }

  lemma {:induction false} PairedThroughout(p: Printer, all: seq<Record>, cut: nat, n: nat)
    requires cut <= n <= |all| && forall i :: cut <= i < n ==> KeepsPaired(p, all, cut, i)
    ensures Paired(Later(p, all, cut, cut, n))
    decreases n
  {
    if n > cut {
      PairedThroughout(p, all, cut, n - 1);
      assert KeepsPaired(p, all, cut, n - 1);
    }
  }

  lemma LaterIsPaired(p: Printer, all: seq<Record>, cut: nat, n: nat)
    requires InSequence(all) && cut <= n <= |all| && AtTurn(all, cut) && Disciplined(all)
    requires LookupsMeet(all, cut)
    ensures Paired(Later(p, all, cut, cut, n))
  {
    forall i | cut <= i < n ensures KeepsPaired(p, all, cut, i) {
      if Paired(Later(p, all, cut, cut, i)) {
        AnswerIsPaired(p, all, cut, i);
      }
    }
    PairedThroughout(p, all, cut, n);
  }

  /** Some message answers the call that ended, with what is read of the result recorded. */
  predicate Answered(p: Printer, messages: seq<Message>, b: Body)
    requires b.ToolCallFinished?
  {
    exists m :: m in messages && Answers(p, m, b)
  }

  predicate Answers(p: Printer, m: Message, b: Body)
    requires b.ToolCallFinished?
  {
    && m.ToolAnswer? && m.callId == b.callId && Reads(p, b, m.content)
    && (m.isError <==> b.outcome != ToolOutcome.Ok)
  }

  /** No recorded answer is lost: when a listed call of the kept part has ended anywhere in the
      log, its answer is among the kept messages. */
  lemma NoAnswerLost(p: Printer, all: seq<Record>, cut: nat, j: nat, i: nat)
    requires InSequence(all) && AtTurn(all, cut) && Disciplined(all) && LookupsMeet(all, cut)
    requires cut <= j < |all| && i < |all| && all[i].body.ToolCallFinished? && Lists(all, j, all[i].body.callId)
    requires !ProgramMade(all, all[i].body.callId)
    ensures j < i
    ensures Answered(p, Later(p, all, cut, cut, |all|), all[i].body)
  {
    assert SameTurn(all, j, i);
    AnswerKept(p, all, cut, i);
    LaterParts(p, all, cut, cut, |all|, i);
    var answer := MessagesAt(p, all, cut, i)[0];
    assert Later(p, all, cut, cut, |all|)[|Later(p, all, cut, cut, i)|] == answer;
  }

  lemma AnswerKept(p: Printer, all: seq<Record>, cut: nat, i: nat)
    requires InSequence(all) && cut <= i < |all| && AtTurn(all, cut)
    requires all[i].body.ToolCallFinished? && FindsStart(all, cut, i) && EndsInTurn(all, i)
    requires !ProgramMade(all, all[i].body.callId)
    ensures |MessagesAt(p, all, cut, i)| == 1 && Answers(p, MessagesAt(p, all, cut, i)[0], all[i].body)
  {
    ResultReads(p, all[i].body);
    StartsAboveCut(all, cut, i);
    StartOfIs(all, all[i].body.callId);
  }

  lemma PairedWithSummary(lead: seq<Message>, later: seq<Message>)
    requires Paired(later) && forall m :: m in lead ==> m.User?
    ensures Paired(lead + later)
  {
    var all, n := lead + later, |lead|;
    assert forall k :: 0 <= k < n ==> all[k] == lead[k] && lead[k].User?;
    forall k | n <= k < |all| && all[k].ToolAnswer?
      ensures Asked(all, k, all[k].callId)
    {
      assert all[k] == later[k - n];
      var j :| 0 <= j < k - n && later[j].Assistant? && exists c :: c in later[j].toolCalls && c.id == all[k].callId;
      assert all[j + n] == later[j];
    }
  }

  lemma AnsweredBehind(p: Printer, lead: seq<Message>, messages: seq<Message>, b: Body)
    requires b.ToolCallFinished? && Answered(p, messages, b)
    ensures Answered(p, lead + messages, b)
  {
    var m :| m in messages && Answers(p, m, b);
    assert m in lead + messages;
  }

  // ------------------------------------------------------- the conversation

  /** The conversation is the summary, if there is one, and what came above the boundary. */
  lemma SummaryAndLater(p: Printer, all: seq<Record>)
    requires InSequence(all) && Boundary(all) <= |all|
    ensures ConversationOf(p, all) == SummaryMessage(p, all) + Later(p, all, Boundary(all), Boundary(all), |all|)
    ensures forall m :: m in SummaryMessage(p, all) ==> m.User?
  {
    EmittedIsLater(p, all, Boundary(all), |all|);
  }

  /** What an accepted log gives: its numbering, and lookups above the boundary. */
  lemma AcceptedMeets(runId: RunId, scope: Scope, log: seq<Record>)
    requires Accepts(Fresh(runId, scope), log)
    ensures InSequence(log) && LookupsMeet(log, Boundary(log))
  {
    Numbered(Fresh(runId, scope), log);
    AcceptedLookups(runId, scope, log, Boundary(log));
  }

  /** However many compactions an accepted log has, and whatever came between planning and
      appending them: when the boundary is between turns, every tool answer of the conversation
      comes after an assistant message that lists its call. */
  lemma ConversationPaired(p: Printer, runId: RunId, scope: Scope, log: seq<Record>)
    requires Accepts(Fresh(runId, scope), log) && Disciplined(log) && AtTurn(log, Boundary(log))
    ensures Paired(ConversationOf(p, log))
  {
    var cut := Boundary(log);
    AcceptedMeets(runId, scope, log);
    LaterIsPaired(p, log, cut, |log|);
    SummaryAndLater(p, log);
    PairedWithSummary(SummaryMessage(p, log), Later(p, log, cut, cut, |log|));
  }

  /** And none of the kept answers is lost: a call the model asked for above the boundary and
      that has ended is answered in the conversation, with the result recorded. */
  lemma ConversationAnswers(p: Printer, runId: RunId, scope: Scope, log: seq<Record>, j: nat, i: nat)
    requires Accepts(Fresh(runId, scope), log) && Disciplined(log) && AtTurn(log, Boundary(log))
    requires Boundary(log) <= j < |log| && i < |log| && log[i].body.ToolCallFinished?
    requires Lists(log, j, log[i].body.callId) && !ProgramMade(log, log[i].body.callId)
    ensures j < i
    ensures Answered(p, ConversationOf(p, log), log[i].body)
  {
    var cut := Boundary(log);
    AcceptedMeets(runId, scope, log);
    NoAnswerLost(p, log, cut, j, i);
    SummaryAndLater(p, log);
    AnsweredBehind(p, SummaryMessage(p, log), Later(p, log, cut, cut, |log|), log[i].body);
  }

  /** And every message of the model above the boundary is there, with its text and its calls. */
  lemma {:induction false} ConversationLists(p: Printer, runId: RunId, scope: Scope, log: seq<Record>, j: nat)
    requires Accepts(Fresh(runId, scope), log) && Boundary(log) <= j < |log| && log[j].body.ModelCallFinished?
    requires log[j].body.text != "" || log[j].body.toolCalls != []
    ensures exists m :: m in ConversationOf(p, log) && ListsAll(log, m, log[j].body)
  {
    var cut, m := Boundary(log), Assistant(log[j].body.text, ToolCallsOf(log, log[j].body.toolCalls));
    AcceptedMeets(runId, scope, log);
    CallsListed(runId, scope, log, log[j].body.toolCalls);
    MessageInLater(p, log, cut, j, m);
    SummaryAndLater(p, log);
    assert m in ConversationOf(p, log);
  }

  /** The assistant's message of a model call: its text and its calls, as they were started. */
  predicate ListsAll(log: seq<Record>, m: Message, b: Body)
    requires b.ModelCallFinished?
  {
    m.Assistant? && m.content == b.text && CallsFit(log, b.toolCalls, m.toolCalls)
  }

  lemma {:induction false} MessageInLater(p: Printer, log: seq<Record>, cut: nat, j: nat, m: Message)
    requires InSequence(log) && cut <= j < |log| && log[j].body.ModelCallFinished?
    requires log[j].body.text != "" || log[j].body.toolCalls != []
    requires m == Assistant(log[j].body.text, ToolCallsOf(log, log[j].body.toolCalls))
    ensures m in Later(p, log, cut, cut, |log|)
  {
    LaterParts(p, log, cut, cut, |log|, j);
    assert MessagesAt(p, log, cut, j) == [m];
    assert Later(p, log, cut, cut, |log|)[|Later(p, log, cut, cut, j)|] == m;
  }

  /** So it is of every log a compacting worker reaches, whatever the interleaving. */
  lemma ReachedIsPaired(p: Printer, runId: RunId, scope: Scope, keep: nat, actions: seq<Action>)
    requires keep > 0 && Happens(keep, actions)
    requires Accepts(Fresh(runId, scope), Reached(keep, actions).log) && Disciplined(Reached(keep, actions).log)
    ensures Paired(ConversationOf(p, Reached(keep, actions).log))
  {
    AlwaysSafe(keep, actions);
    ConversationPaired(p, runId, scope, Reached(keep, actions).log);
  }

  /** Appending a compaction at the sequence that was planned leaves every tool answer of the
      conversation after its own assistant message. */
  lemma CompactedIsPaired(p: Printer, runId: RunId, scope: Scope, log: seq<Record>, keep: nat, c: Record)
    requires Accepts(Fresh(runId, scope), log + [c]) && Disciplined(log + [c]) && keep > 0
    requires c.body.CompactionApplied?
    requires PlanCut(log, Boundary(log), keep) == Some(c.body.replacedToSeq as int)
    ensures Paired(ConversationOf(p, log + [c]))
  {
    CompactedAtTurn(p, runId, scope, log, keep, c);
    ConversationPaired(p, runId, scope, log + [c]);
  }

  lemma CompactedAtTurn(p: Printer, runId: RunId, scope: Scope, log: seq<Record>, keep: nat, c: Record)
    requires Accepts(Fresh(runId, scope), log + [c]) && keep > 0 && c.body.CompactionApplied?
    requires PlanCut(log, Boundary(log), keep) == Some(c.body.replacedToSeq as int)
    ensures Boundary(log + [c]) == c.body.replacedToSeq && AtTurn(log + [c], c.body.replacedToSeq)
  {
    Numbered(Fresh(runId, scope), log + [c]);
    SummaryThenLater(p, log, keep, c);
    assert (log + [c])[c.body.replacedToSeq] == log[c.body.replacedToSeq];
  }

  /** And none of the answers it keeps is lost. */
  lemma CompactedAnswers(
      p: Printer, runId: RunId, scope: Scope, log: seq<Record>, keep: nat, c: Record, j: nat, i: nat)
    requires Accepts(Fresh(runId, scope), log + [c]) && Disciplined(log + [c]) && keep > 0
    requires c.body.CompactionApplied?
    requires PlanCut(log, Boundary(log), keep) == Some(c.body.replacedToSeq as int)
    requires c.body.replacedToSeq <= j < |log| && i < |log| && log[i].body.ToolCallFinished?
    requires Lists(log + [c], j, log[i].body.callId) && !ProgramMade(log + [c], log[i].body.callId)
    ensures j < i
    ensures Answered(p, ConversationOf(p, log + [c]), log[i].body)
  {
    CompactedAtTurn(p, runId, scope, log, keep, c);
    assert (log + [c])[i] == log[i];
    ConversationAnswers(p, runId, scope, log + [c], j, i);
  }

  function SummariesOf(applied: seq<Record>): seq<string>
    requires forall i :: 0 <= i < |applied| ==> applied[i].body.CompactionApplied?
  {
    if applied == [] then [] else SummariesOf(Init(applied)) + [Last(applied).body.summary]
  }

  lemma CompactionEffect(f: Fold, r: Record)
    requires Step(f, r).Accepted?
    ensures Step(f, r).value.state.compaction == CompactionStep(f.state.compaction, r.body)
  {
  }

  /** The boundary the fold keeps is the one the projection finds in the log, and so are the
      summaries: a worker and a conversation never cut in different places. */
  lemma {:induction false} BoundaryIsFolded(runId: RunId, scope: Scope, log: seq<Record>)
    requires Accepts(Fresh(runId, scope), log)
    ensures After(Fresh(runId, scope), log).state.compaction.boundary == Boundary(log)
    ensures forall i :: 0 <= i < |Compactions(log)| ==> Compactions(log)[i].body.CompactionApplied?
    ensures After(Fresh(runId, scope), log).state.compaction.summaries == SummariesOf(Compactions(log))
  {
    CompactionsOnly(log);
    if log != [] {
      RunSnoc(Fresh(runId, scope), log);
      BoundaryIsFolded(runId, scope, Init(log));
      CompactionEffect(After(Fresh(runId, scope), Init(log)), Last(log));
      if Last(log).body.CompactionApplied? {
        assert Init(Compactions(Init(log)) + [Last(log)]) == Compactions(Init(log));
      }
    }
  }
}
