# Verification of the run log and its projections

A Run of the Psych runtime is its log: an append-only sequence of 23 kinds of record. Everything
else, the state a worker decides by, the conversation a model is sent, the thread a person reads,
the report, the status a peer agent sees, is computed from it. This project models those
computations in Dafny and proves what they promise each other.

**The reducer.** `Records.dfy` has the alphabet and its validators, `Reducer.dfy` the fold as a
function, one record at a time, with a reason for every log it refuses. `StateView.dfy` is the
code's own form: an object with fields updated in place, one method per arm, its repeat-tally cells
and approval decisions separate objects on the heap; every method is proved against the function,
and `Continuation.dfy` says what continuing from a prior state does to that prior. What the fold is,
without the fold: `LogTerms.dfy` has the words for what is in a log, `Admissible.dfy` says in them
which logs are accepted and why another is refused, `History.dfy` what every part of the state is.
About the fold: folding in two parts (`SplitFold.dfy`), the pending queues (`PendingQueues.dfy`), what counters mean
in terms of the log (`CallHistory.dfy`, `Counters.dfy`, `StepHistory.dfy`), endings (`Endings.dfy`), money (`Billing.dfy`,
`Pricing.dfy`, `Usage.dfy`).

**The projections.** `Conversation.dfy` and `ThreadView.dfy` are the two message loops and their
agreement, `Rendering.dfy` what both show by the records' own fields; `Compacting.dfy` and `Pairing.dfy` the compaction cut, its crash safety and the
conversation after it; `Joins.dfy`, `Report.dfy`, `Trips.dfy`, `Answers.dfy`, `Subtrees.dfy` and
`Rollups.dfy` the report's rows, trips and rollup and the answer split; `TaskStream.dfy` the event stream against the
status snapshot.

**The codecs.** `Utf16.dfy`, `CanonicalJson.dfy`, `Bytes.dfy` and `Signing.dfy` go from RFC 8785 and
base64url to verified cards, and `WireForms.dfy` says what is on the wire; `Sse.dfy` is the chunk-fed line buffer; `WorkflowPaths.dfy`,
`StepIds.dfy` and `WorkflowTree.dfy` are path syntax and step positions.

`Examples.dfy` has concrete logs on which the code does less than its prose says.

## Conventions

- A log is accepted when `reduce` raises nothing. Lemmas about accepted logs start from
  `Reducer.Fresh(runId, scope)`, the state `reduce` starts on.
- `_check_*` failures are `Refused` with the corruption reason and sequence; a raised `ValueError`
  is `Misused`, or None where a function has one way to raise.
- A digest stands for what it hashes: different pre-images are taken to have different digests.
- `Decimal` is `real` before rounding; usage counters are unbounded as in Python.
- A Python string is a sequence of Unicode scalar values, the strings that can be encoded at all.
- The contract of a `Fold*` arm of `RunStateView` equates it with its case of `Reducer.Check` and
  of the step functions; its row says what that case is, and the lemmas what follows from it.
- `RunStateView`'s fields are grouped by what changes together (`Life`, `Turns`, `Calls`, `Steps`,
  `Queues`, `Waiting`, `Family`, `Bill`, `Compaction`, `Shown`).

## Where the code is narrower than its prose

- Continuing a fold is described as leaving the prior alone. It copies neither the approval
  decisions nor the tally cells (psych_runtime/core/reducer.py:1248-1275); `PriorUntouched` and
  `CalledTwice` give the exact conditions.
- A continued fold knows the pending queue entries only (psych_runtime/core/reducer.py:615-621);
  `SplitExactly` says on which logs it accepts what the whole fold refuses.
- Nothing is said to follow a settlement (psych_runtime/core/records.py:443-444). A second
  `run_settled` is accepted (psych_runtime/core/reducer.py:628) and replaces the ending; nothing else
  is, as `SettledEnds` says, and `SettledTwice` has a completed Run that has failed.
- Only `attempt_started` asks for an admission (psych_runtime/core/reducer.py:662), so the stream's
  agreement with the snapshot takes admission first as a hypothesis; `UnadmittedIsSilent` does without.
- The model's conversation drops a program-made call's answer only when the call started above the
  compaction boundary (psych_runtime/core/conversation.py:180-206); a call that straddles it shows.
  `ProjectionsAgree` says that is the one disagreement, and `StraddlingShows` has a log with it.
- With `keep_recent_turns` 0 the cut would be before the first turn, not after the last, because
  index -0 is index 0 (psych_runtime/runtime/compaction.py:91). The policy's validator forbids 0
  (psych_runtime/core/spec.py:832, `gt=0`); `PlanCut` follows the code, `KeepingNone` says what 0 would
  do, and the other results need what the validator gives.
- `complete` is promised to be false when `child_depth` stopped the walk before the bottom of the
  tree (psych_runtime/report/model.py:388-390). Where it stops, the code asks only whether the
  listed child has ended (psych_runtime/report/build.py:461-470), and of a Run with children nothing
  (psych_runtime/report/build.py:507-518). `FinalExactly` says what is asked at any depth;
  `CutShortComplete` and `RootAtWorkComplete` have accepted logs marked complete too early.
- A signature that is not base64url raises the decoder's error and not the documented
  `SignatureVerificationError` (psych_runtime/a2a/signing.py:367); it is `Undecodable` here, when
  exactly is `UndecodableExactly`, and `OneSymbolUndecodable` has one.
- The lenient base64url decoder skips foreign characters (psych_runtime/a2a/signing.py:168-171), so
  a protected header may hold dots (`DotDropped`); `SignedBytesCover` holds all the same.

## Model

| member | source | states |
|---|---|---|
| StateView.RunStateView.FoldRunAdmitted | psych_runtime/core/reducer.py:640-659 | an admission is refused once there is one, and otherwise sets the Run's identity and limits and nothing else |
| StateView.RunStateView.FoldAttemptStarted | psych_runtime/core/reducer.py:661-688 | an attempt needs an admission and the next attempt number; it closes any open turn and call and clears the resumed flag |
| StateView.RunStateView.FoldTurnStarted | psych_runtime/core/reducer.py:690-707 | a turn needs the previous one closed and the next number |
| StateView.RunStateView.FoldModelCallStarted | psych_runtime/core/reducer.py:709-726 | a model call needs its own open turn and no open call |
| StateView.RunStateView.FoldModelCallFinished | psych_runtime/core/reducer.py:728-746 | a finish needs the open call of its turn and the Run's currency; it closes turn and call and charges usage and cost |
| StateView.RunStateView.FoldModelCallFailed | psych_runtime/core/reducer.py:748-755 | a failure needs the open call of its turn; it closes both and counts the failure and the retry |
| StateView.RunStateView.FoldToolCallStarted | psych_runtime/core/reducer.py:757-792 | a call id starts once, in the current turn, and a handle it reads back must have been issued, unless a program made the call |
| StateView.RunStateView.FoldToolCallFinished | psych_runtime/core/reducer.py:794-846 | a finish must answer an open call; it becomes a result, its handles are issued, streak and tally move, program bytes are counted |
| StateView.RunStateView.FoldStepStarted | psych_runtime/core/reducer.py:848-891 | a settled step never restarts and attempts are consecutive; the step's record is replaced by a fresh one |
| StateView.RunStateView.FoldStepCompleted | psych_runtime/core/reducer.py:893-941 | a completion answers a step begun and not completed, and a successful set_state output joins the workflow's state |
| StateView.RunStateView.FoldAbortRequested | psych_runtime/core/reducer.py:943-945 | the first abort sets the sequence, later ones change nothing |
| StateView.RunStateView.FoldQueueEnqueued | psych_runtime/core/reducer.py:947-978 | steer and follow-up are closed after an abort, an entry id is enqueued once, and the entry goes to the end of its own list |
| StateView.RunStateView.FoldQueueCancelled | psych_runtime/core/reducer.py:980-1002 | only an earlier entry that is neither cancelled nor consumed is cancelled, and it leaves its list |
| StateView.RunStateView.FoldQueueConsumed | psych_runtime/core/reducer.py:1004-1022 | only an entry that is neither cancelled nor consumed is consumed, and it leaves its list |
| StateView.RunStateView.FoldSubagentSpawned | psych_runtime/core/reducer.py:1024-1055 | a child id is new and its name is not a living child's; it is added last |
| StateView.RunStateView.FoldSubagentMessaged | psych_runtime/core/reducer.py:1057-1079 | a message goes to a known child and is counted |
| StateView.RunStateView.FoldSubagentFinished | psych_runtime/core/reducer.py:1081-1110 | a known, living child ends once and its figures are kept |
| StateView.RunStateView.FoldSuspended | psych_runtime/core/reducer.py:1112-1145 | no second suspension, an approval waits on an open call, and the turn and call close |
| StateView.RunStateView.FoldResumed | psych_runtime/core/reducer.py:1147-1191 | a resume needs a suspension; it answers the waiting call and step, records the approval, adds the time waited and clears the pause |
| StateView.RunStateView.FoldShown | psych_runtime/core/reducer.py:1193-1203 | a task list replaces the last one, a component is appended |
| StateView.RunStateView.FoldCompactionApplied | psych_runtime/core/reducer.py:1205-1235 | the range runs forward and lies before the record, the boundary never goes back, the summary is kept and the call charged |
| StateView.RunStateView.FoldRunSettled | psych_runtime/core/reducer.py:1237-1243 | a settlement sets the ending and closes turn and call; a second one is accepted |
| StateView.RunStateView.FoldCost | psych_runtime/core/reducer.py:1345-1374 | an unpriced call is counted, a second currency is refused, anything else is added |
| StateView.RunStateView.UpdateRepeatCount | psych_runtime/core/reducer.py:1512-1547 | one exact call answered as before bumps its cell where it stands; a new answer puts a new cell in its place |
| StateView.RunStateView.UpdateFailureStreak | psych_runtime/core/reducer.py:1550-1566 | a success clears the tool's streak, an error or an unknown outcome lengthens it, an abort leaves it |
| StateView.RunStateView.RemoveFirst | psych_runtime/core/reducer.py:1456-1461 | the first entry with the id leaves its list |
| StateView.RunStateView.Envelope | psych_runtime/core/reducer.py:623-635 | the run, the tenant and the sequence must match, and nothing but a settlement follows a settlement |
| StateView.RunStateView.PutCell | psych_runtime/core/reducer.py:1533-1546 | a new answer puts a new cell in the place of the call's own |
| StateView.RunStateView.FoldRecord | psych_runtime/core/reducer.py:637-1243 | dispatching a record to its arm is one step of the fold: the same refusal, or the same state and bookkeeping |
| StateView.RunStateView.ContinueFrom | psych_runtime/core/reducer.py:1248-1280 | the continuation starts with the prior's state and shares its tally cells and approval decisions |
| StateView.RunStateView.FoldAll | psych_runtime/core/reducer.py:622-1245 | the loop over a log, in place, ends as the fold of the log ends, or stops at the same record for the same reason; and what it did to cells it did not own |
| Continuation.ReduceLog | psych_runtime/core/reducer.py:551-621 | reduce over objects: its answer, and the prior state as it is left |
| Continuation.Continue | psych_runtime/core/reducer.py:584-621 | continuing onto a prior: the answer is the fold's, and the prior afterwards is given exactly |
| Continuation.PriorUntouched | psych_runtime/core/reducer.py:1248-1275 | continuing leaves the prior as it was if and only if no call it had tallied is first answered the way it was last answered and no call is decided, by the last resume in the accepted part of the suffix that answers it, other than it was |
| Continuation.TalliesUntouched | psych_runtime/core/reducer.py:1512-1547 | the prior's own tallies are unchanged if and only if no tallied call's first new answer repeats its last one |
| Continuation.CarriedAlong | psych_runtime/core/reducer.py:1512-1547 | tallies and decisions steer nothing: with others in their place the same records are accepted and nothing else differs |
| Continuation.DecisionsMean | psych_runtime/core/reducer.py:1147-1156 | a call is decided exactly when a resume with a decision answers the suspension on it, and the decision is that of the last such resume |
| Continuation.PendingIs | psych_runtime/core/reducer.py:1112-1191 | the call the fold holds as waiting is the one the latest suspension named and no resume has answered |
| Continuation.CalledTwice | psych_runtime/core/reducer.py:1248-1275 | folding the same suffix onto the same prior again gives the same state if and only if no tallied call was answered in it, every time, as before |
| Examples.ContinuingTwiceDiffers | psych_runtime/core/reducer.py:1248-1275 | a log of three records and one more on which continuing twice gives two answers |
| Reducer.RunConcat | psych_runtime/core/reducer.py:551-635 | folding a concatenation is folding the second part from where the first ended, refusals included |
| Reducer.AcceptsPrefix | psych_runtime/core/reducer.py:551-635 | every prefix of an accepted log is accepted |
| Reducer.Numbered | psych_runtime/core/reducer.py:1283-1342 | accepted records are numbered consecutively and share one run and tenant |
| Admissible.ReducedExactly | psych_runtime/core/reducer.py:551-1243 | a log is accepted exactly when no record is objectionable where it stands, each objection stated of the records before it, and is otherwise refused at the first that is, for that reason |
| Admissible.FirstIs | psych_runtime/core/reducer.py:551-1243 | the first objection is the first: none before it, and that one there |
| Admissible.ReduceAnswers | psych_runtime/core/reducer.py:551-621 | reduce without a prior: a misuse without records, and otherwise the first objection of the Run asked for, or the state |
| Admissible.ReduceOnto | psych_runtime/core/reducer.py:575-621 | onto a prior another Run is a misuse, and the same Run is folded from the prior |
| History.StateMeans | psych_runtime/core/reducer.py:637-1243 | every part of an accepted log's state is what the log says: calls open, answered and with what result, handles, program bytes, each step's memoised record and answer, waited seconds, resume payloads and approvals, children, retries, what is shown |
| SplitFold.CallsKnownAlways | psych_runtime/core/reducer.py:757-846 | at every reachable state the started calls are the disjoint union of the open and the settled ones |
| SplitFold.SplitFolding | psych_runtime/core/reducer.py:584-635 | when no withdrawn entry id is enqueued again, folding a suffix onto the fold of a prefix ends like folding the whole, refusals included |
| SplitFold.ReduceSplit | psych_runtime/core/reducer.py:584-635 | an accepted log folds to the same state in two parts, whatever the cut into a non-empty prefix and a suffix |
| SplitFold.SplitExactly | psych_runtime/core/reducer.py:615-621 | for every log and cut the two folds answer differently if and only if the suffix, before anything is refused, enqueues an id withdrawn before the cut and nothing else stands in its way |
| Examples.ReenqueueSlipsPast | psych_runtime/core/reducer.py:615-621 | a log of three records the whole fold refuses and the fold in two parts accepts |
| PendingQueues.QueuesExact | psych_runtime/core/reducer.py:943-1022 | at every reachable state the three lists hold precisely the enqueued entries neither cancelled nor consumed, in increasing enqueue order |
| PendingQueues.ReachableLists | psych_runtime/core/reducer.py:1446-1461 | each pending list holds its own kind of entry under distinct ids in increasing enqueue order, and no id is in two lists |
| PendingQueues.AbortSeqKept | psych_runtime/core/reducer.py:943-945 | the abort sequence never changes once set |
| PendingQueues.AbortSafe | psych_runtime/core/reducer.py:943-978 | after an abort every later steer or follow-up list is the earlier one with entries removed |
| CallHistory.StartsKnownAlways | psych_runtime/core/reducer.py:757-846 | a call is started exactly when its start is in the log, and an open call is as that start left it |
| CallHistory.FinishAnswers | psych_runtime/core/reducer.py:794-846 | the call an accepted finish answers is the one its start in the log describes |
| Counters.StreaksMeanHistory | psych_runtime/core/reducer.py:1550-1566 | a tool's streak is the length of its longest trailing run of results that are not OK, aborts left out |
| Counters.StreaksPositive | psych_runtime/core/reducer.py:1550-1566 | a tool whose last result was OK has no entry |
| Counters.TalliesMeanHistory | psych_runtime/core/reducer.py:1512-1547 | an exact call's tally is the trailing run of its OK results with one same answer, and that answer; without an OK result there is none |
| StepHistory.SettledForever | psych_runtime/core/reducer.py:848-941 | once a step is settled its record is identical in every accepted extension |
| StepHistory.AttemptsCountUp | psych_runtime/core/reducer.py:848-891 | a step's attempts are numbered 1, 2, 3 and on, and its record is on the last of them |
| StepHistory.StartsAddUp | psych_runtime/core/reducer.py:848-891 | step_starts is the sum of the steps' attempt numbers |
| StepHistory.StateIsMerged | psych_runtime/core/reducer.py:893-941 | the workflow state is the in-order merge of the successful set_state outputs, and no step contributes twice |
| Billing.Conserved | psych_runtime/core/reducer.py:728-746 | usage is the sum over finished model calls and compactions; every such call is priced or counted as unpriced; cost is None exactly when nothing was priced and otherwise stands for the one-currency sum, under its one model or source unless several are mixed, each of its four categories known exactly when every priced call reports it and then their sum |
| Billing.CountersAddUp | psych_runtime/core/usage.py:60-68 | each of the counters of the sum is the sum of that counter |
| Billing.TotalsStayValid | psych_runtime/core/usage.py:60-68 | adding valid counters gives valid counters |
| Endings.SettledEnds | psych_runtime/core/reducer.py:628-635 | after a settlement exactly further settlements of the Run are accepted; each replaces the ending and nothing else |
| Endings.EndingIs | psych_runtime/core/reducer.py:1237-1243 | a Run has ended exactly when its log holds a settlement; its ending is the last one's, and only settlements follow the first |
| Endings.EndingKept | psych_runtime/core/reducer.py:1237-1243 | an ending is kept over an accepted extension if and only if no other ending follows |
| Examples.SettledTwice | psych_runtime/core/reducer.py:628-635 | an accepted log whose Run completed and then failed |
| Pricing.CategoriesNearTotal | psych_runtime/model/pricing.py:239-261 | a computed cost is at most two units of the eighth place from the sum of its four rounded categories |
| Pricing.MillionCosts | psych_runtime/model/pricing.py:211-261 | a million tokens of one kind cost the rounded rate of that kind, in its category and in the total, and nothing in any other, the one-hour write falling back on the other write's rate |
| Pricing.MillionExact | psych_runtime/model/pricing.py:239-248 | before rounding they cost exactly that rate, in that category |
| Pricing.ExactAdds | psych_runtime/model/pricing.py:239-248 | before rounding every category adds up over usage |
| Pricing.ExactReads | psych_runtime/model/pricing.py:239-248 | a category reads no tokens and no rate but its own, and reasoning is never counted |
| Pricing.QuantizeIs | psych_runtime/model/pricing.py:251-261 | a price is a whole number of hundred-millionths at most half a unit away |
| Pricing.Unpriced | psych_runtime/model/pricing.py:211-238 | there is no cost exactly when the table has no price for the model |
| Pricing.TwoUnitsReached | psych_runtime/model/pricing.py:239-261 | two units is reached, by the computed cost of one token of each kind at half a unit |
| Pricing.RoundingNear | psych_runtime/model/pricing.py:251-261 | half-even rounding moves a number by at most a half, and exactly a half only to an even number |
| Pricing.RunNearExact | psych_runtime/core/reducer.py:1345-1374 | a Run's cost over n priced calls is within n/2 units of the exact price, and there is a cost exactly when some call was priced |
| Conversation.BuildConversation | psych_runtime/core/conversation.py:86-177 | the loop's messages are the summary, if anything was compacted, and what each record above the boundary emits |
| Conversation.EmitOne | psych_runtime/core/conversation.py:115-177 | each record kind's message, its text, its tool calls looked up in the whole log, its answer named by the call seen above the boundary |
| Conversation.CompactionLoop | psych_runtime/core/conversation.py:209-217 | the boundary is the highest compacted sequence and every compaction is kept in order |
| Rendering.ResultReads | psych_runtime/core/conversation.py:282-334 | what a result reads as, by the record's own fields: an elided handle, a text itself, nothing for null, compact JSON otherwise, the failure's message with its traceback only when it is for the model, or the guidance of its outcome |
| Rendering.InputSays | psych_runtime/core/conversation.py:220-237 | what an admission's input says: the first of its message, input, text and prompt that is a text and not blank, nothing for an empty object, JSON otherwise |
| Rendering.StepInputSays | psych_runtime/core/conversation.py:220-237 | a mapped step input that is no object says itself as JSON unless it is falsy |
| Rendering.ChildSays | psych_runtime/core/conversation.py:362-376 | what a finished child says, by how it ended, with or without a summary |
| Rendering.SummarySays | psych_runtime/core/conversation.py:209-217 | the leading summary is every summary in order with blank lines between them |
| Rendering.BoundaryIs | psych_runtime/core/conversation.py:209-217 | the boundary is the highest replaced sequence, 0 without a compaction |
| Rendering.MessagesAre | psych_runtime/core/conversation.py:115-206 | what each record of an accepted log gives the model, by its fields: nothing at or below the boundary, and above it its text, the name and arguments of each listed call, an answer's tool name, text and error flag |
| Rendering.SpaceIs | psych_runtime/core/conversation.py:220-237 | which characters a text of white space is made of |
| ThreadView.MessageViews | psych_runtime/core/thread_view.py:105-210 | the second loop's rows, or the exception a mapped input that is no object raises |
| ThreadView.ViewsUnlessRaised | psych_runtime/core/thread_view.py:105-210 | rendering raises exactly when some record above the boundary raises |
| Rendering.RowsAre | psych_runtime/core/thread_view.py:105-210 | what each record of an accepted log shows a person: role, content, tool name, error flag, call id, sequence, time, turn and Run |
| Rendering.SummaryRowIs | psych_runtime/core/thread_view.py:213-228 | the summaries' row comes first, placed and dated at the last compaction |
| Rendering.DictIs | psych_runtime/core/thread_view.py:105-210 | a mapped input that is an object is itself, an empty one is empty, and anything else raises |
| Rendering.ViewsOfRun | psych_runtime/core/thread_view.py:105-113 | every row is of the first record's Run |
| Examples.StraddlingShows | psych_runtime/core/conversation.py:180-206 | an accepted log of four records on which the two projections differ |
| ThreadView.OneEnqueue | psych_runtime/core/thread_view.py:112-125 | in an accepted log the first and the last enqueue of an id are one record |
| ThreadView.OneStart | psych_runtime/core/conversation.py:247-265 | in an accepted log the first and the last start of a call are one record |
| ThreadView.ProjectionsAgree | psych_runtime/core/thread_view.py:105-210 | for every accepted log with no record above the boundary that raises, the rows shown to a person, program-made calls aside, are the model's messages by role and content in order, if and only if no program-made call straddles the compaction boundary |
| Compacting.PlanCutMeans | psych_runtime/runtime/compaction.py:68-92 | a cut is planned exactly when more turns than are kept started above the boundary; it advances the boundary, sits just before a turn and keeps that many turns |
| Compacting.KeepingNone | psych_runtime/runtime/compaction.py:91-92 | a policy that kept no turn would cut before the first one, leaving every turn |
| Compacting.AlwaysSafe | psych_runtime/runtime/compaction.py:68-92 | every interleaving of planning, crashing, appending and other records, turns between a plan and its append included, keeps the worker's invariant |
| Compacting.CompactionsBounded | psych_runtime/runtime/compaction.py:68-92 | over every interleaving cuts strictly increase, at least the kept turns stay below the last one, and compactions plus the kept turns never exceed the turns |
| Compacting.KeptTurns | psych_runtime/runtime/compaction.py:68-92 | a written compaction keeps exactly the policy's turns and those started since it was planned |
| Compacting.NothingTwice | psych_runtime/runtime/compaction.py:68-92 | after the append, whatever else has landed, planning again returns nothing if and only if no turn started since the plan |
| Compacting.LostPlanReplanned | psych_runtime/runtime/compaction.py:68-92 | after a crash before the append the cut planned is no lower, and the same if and only if no turn started since |
| Pairing.BoundaryIsFolded | psych_runtime/core/reducer.py:1205-1225 | the boundary and the summaries the fold keeps are the ones the projection finds in the log |
| Pairing.SummaryThenLater | psych_runtime/core/conversation.py:99-206 | after a compaction at the planned cut the conversation is one summary and exactly the projection of the later records |
| Pairing.ConversationPaired | psych_runtime/core/conversation.py:99-206 | for every accepted, disciplined log whose boundary is between turns, whatever its compactions, every tool answer comes after an assistant message that lists its call |
| Pairing.ConversationAnswers | psych_runtime/core/conversation.py:180-206 | in such a log every call listed above the boundary that has ended is answered with what the recorded result reads as, flagged as an error exactly when it was not OK |
| Pairing.ConversationLists | psych_runtime/core/conversation.py:115-177 | every model message above the boundary is there with its text and the recorded name and arguments of each of its calls |
| Pairing.ReachedIsPaired | psych_runtime/runtime/compaction.py:68-92 | so it is of every log a compacting worker reaches, whatever the interleaving of plans, crashes, appends and turns |
| Pairing.CompactedIsPaired | psych_runtime/core/conversation.py:99-206 | for an accepted, disciplined log with a compaction appended at the planned cut, every tool answer comes after an assistant message that lists its call |
| Pairing.CompactedAnswers | psych_runtime/core/conversation.py:180-206 | and every kept call that was listed and ended is answered with what the recorded result reads as, flagged when it was not OK |
| Joins.JoinRows | psych_runtime/report/build.py:160-226 | the row builders' loop: one row per start with the end that belongs to it; a lookup fails exactly when some end has no start, or with popping when it is not open |
| Joins.RowsCount | psych_runtime/report/build.py:160-226 | as many rows as starts, as many ended rows as ends |
| Joins.OnceRows | psych_runtime/report/build.py:160-226 | when keys start once each row has its own key and lacks an end exactly while the key is open |
| Report.ReportRows | psych_runtime/report/build.py:160-377 | over an accepted log the model, tool and step rows are exact and no lookup fails |
| Report.Suspensions | psych_runtime/report/build.py:536-572 | each suspension with the resume that follows it |
| Report.TurnsCountUp | psych_runtime/core/reducer.py:690-707 | turns are numbered 1, 2, 3 and on, so each number is started once |
| Report.ModelCallsPaired | psych_runtime/core/reducer.py:690-755 | each turn number belongs to one model call, which ends at most once and after it started |
| Report.ModelRowsAddUp | psych_runtime/report/build.py:160-226 | started model calls are finished, failed or dangling, one row each |
| Report.UnansweredAreOpen | psych_runtime/report/build.py:264-311 | the tool rows without an answer are exactly the fold's open calls |
| Report.StepsPaired | psych_runtime/report/build.py:319-377 | a step's row is unanswered while the fold has the step begun and not completed |
| Report.SuspensionsPaired | psych_runtime/report/build.py:536-572 | suspensions and resumes alternate, one open exactly while the fold says suspended |
| Trips.FailureStreakTrips | psych_runtime/report/build.py:580-621 | one trip for exactly each rise of the reducer's own streak to the threshold |
| Answers.CallViews | psych_runtime/core/answer.py:204-233 | over any log every started call under its latest start and that one's latest end; over a paired log the dictionary of its rows |
| Answers.FinishingTurn | psych_runtime/core/answer.py:191-201 | the turn of the last finished call that asked for no tool |
| Answers.AnswerAtMeans | psych_runtime/core/answer.py:191-201 | the answer is the last call that finished without asking for a tool, and there is none when no call did |
| Answers.SplitAnswer | psych_runtime/core/answer.py:140-188 | any log with records is split by the turn of its answer, a log without raises; over an accepted log the work is every model call that ended but the answer, once each and in order |
| Answers.SplitMeans | psych_runtime/core/answer.py:140-188 | record by record: the answer's text, and for each other ended call its turn, its text and the calls it asked for that were started, each with its end |
| Answers.AcceptedSplit | psych_runtime/core/answer.py:140-188 | in an accepted log splitting by turn leaves out one call, and the calls shown are the paired rows |
| Answers.TurnsEndOnce | psych_runtime/core/answer.py:153-188 | two calls that ended have different turns, so leaving out a turn leaves out one record |
| Answers.WorkCount | psych_runtime/core/answer.py:140-188 | nothing is dropped and nothing is shown twice |
| Subtrees.BuildReport | psych_runtime/report/build.py:62-140 | a report is built exactly when every Run its subagent walk looks for is there and admitted and their costs share one currency, and the same holds of every Run a step of that walk names; its branch is the flat sum over the walk, and each step's Run is reported as exactly |
| Subtrees.StepReports | psych_runtime/report/build.py:372-377 | the reports of the Runs that steps name, up to the first that cannot be built |
| Subtrees.Subagents | psych_runtime/report/build.py:385-444 | one row per child in spawn order, each standing for its own walk, or the first failure |
| Subtrees.Subtree | psych_runtime/report/build.py:490-528 | the loop's sum is this Run's and every branch's, or no sum when two currencies meet |
| Subtrees.TotalConcat | psych_runtime/core/usage.py:154-186 | summing in groups is summing flat |
| Subtrees.TotalMeans | psych_runtime/core/usage.py:154-186 | a flat sum exists exactly when the costs share one currency, and is then the sums of tokens, Runs, unreported and unpriced calls and money |
| Subtrees.TreeTotal | psych_runtime/report/build.py:490-528 | a walk as deep as the spawn tree sums every Run's own figures, each Run of the tree counted |
| Subtrees.FinalExactly | psych_runtime/report/build.py:447-518 | of a walk of any depth, complete means that every Run walked that spawned none has settled and every child the walk stopped short of has ended |
| Subtrees.FinalMeans | psych_runtime/report/build.py:507-518 | of a walk as deep as the spawn tree, complete means that every Run that spawned none has settled, and nothing about the others |
| Examples.CutShortComplete | psych_runtime/report/model.py:388-390 | accepted logs of three Runs of which the walk without depth counts two and is complete, though the third goes on |
| Examples.RootAtWorkComplete | psych_runtime/report/build.py:507-518 | accepted logs of a Run at work whose totals are complete |
| Subtrees.AcceptedListed | psych_runtime/core/reducer.py:1024-1055 | in an accepted fold each child is listed once |
| Rollups.AcceptedLawful | psych_runtime/core/reducer.py:1024-1055 | a store of accepted logs lists each Run's children once |
| Rollups.NamedOnce | psych_runtime/report/build.py:319-377 | the Runs a report goes on to from its steps are those its completed steps name, each as often as named |
| Rollups.ReportOn | psych_runtime/report/build.py:62-140 | over a store of accepted logs a report is built exactly when its walk can be, and when the walk reaches every Run its totals are those of every call in the tree's logs, the cost incomplete exactly when some call was unpriced |
| Rollups.TreeCharges | psych_runtime/report/build.py:490-528 | the rollup exists exactly when every priced call in every log of the tree is in one currency, and is then the sum over all those calls |
| Rollups.PartsWithoutDepth | psych_runtime/report/build.py:447-470 | without depth the figures are the Run's own and, for each spawn in order, those its end recorded, a living child's none |
| Rollups.TreeDistinct | psych_runtime/runtime/execute.py:961-975 | where admissions record the Run that spawned them, no Run of a walk from one that is not its own ancestor is met twice |
| Rollups.RunsCounted | psych_runtime/report/build.py:490-528 | so `runs` is the number of Runs |
| TaskStream.StreamEvents | psych_runtime/a2a/mapping.py:375-449 | one status event per change of state or message in log order, the answer before the ending |
| TaskStream.StreamEndsAsAnnounced | psych_runtime/a2a/mapping.py:399-449 | the last state emitted is the state last announced, repeats left out |
| TaskStream.EndingTold | psych_runtime/a2a/mapping.py:139-203 | an ended Run is told as its last settlement says by stream and snapshot: completed, failed for a failed, abandoned or forced one, canceled for an aborted one |
| TaskStream.WaitTold | psych_runtime/a2a/mapping.py:139-203 | with the default table a Run waiting on a question, an approval or a breakpoint is told as input required, on an event as auth required, on a timer or children as working; the snapshot of one asked to stop says working |
| TaskStream.WorkTold | psych_runtime/a2a/mapping.py:187-203 | any other Run is told as working from its first attempt on and as submitted before; the snapshot of one asked to stop says working |
| TaskStream.StreamedOneByOne | psych_runtime/a2a/mapping.py:399-449 | the stream is one record's events after another's, each event's state, finality, message, artifact and time by that record |
| TaskStream.SnapshotAgrees | psych_runtime/a2a/mapping.py:187-203 | over an orderly accepted log the last state streamed is the snapshot's, except exactly for an unsettled abort of a queued Run or of one waiting in a state other than working |
| Examples.UnadmittedIsSilent | psych_runtime/core/reducer.py:661-668 | an accepted log without admission that streams nothing while the snapshot says working |
| Examples.StreamMissesTheStop | psych_runtime/a2a/mapping.py:399-449 | a Run stopped before its first attempt, where the two differ |
| Sse.SseLineBuffer.Feed | psych_runtime/model/openai_compat.py:549-562 | the events a chunk completes and the state it leaves |
| Sse.SseLineBuffer.ConsumeLine | psych_runtime/model/openai_compat.py:563-570 | a blank line dispatches, a data line is kept without its first space, anything else is ignored |
| Sse.IterSseEvents | psych_runtime/model/openai_compat.py:607-637 | a response's events, however it was chunked, are those of its whole text |
| Sse.BlockGives | psych_runtime/model/openai_compat.py:549-582 | a block of lines up to a blank one, whatever the line ending, is one event, its data values with line breaks between them, or none without a data line |
| Sse.TrailingGives | psych_runtime/model/openai_compat.py:572-582 | without its blank line the last block is what the flush gives |
| Sse.ChunkIndependent | psych_runtime/model/openai_compat.py:549-582 | events, leftover line and data lines do not depend on how a text is cut |
| Sse.PayloadsRoundTrip | psych_runtime/a2a/rest.py:106-115 | any JSON payloads, framed and cut anywhere, come back as as many events, each parsing to its payload |
| Sse.FramesRoundTrip | psych_runtime/a2a/rest.py:106-115 | any frames, cut anywhere, come back as exactly their bodies in order with nothing left to flush |
| Sse.FrameIs | psych_runtime/a2a/rest.py:106-115 | a frame is its event's name if it has one, its data, and a blank line |
| Utf16.UnitsInjective | psych_runtime/a2a/signing.py:128-133 | no two keys have the same code units |
| Utf16.BeforeTotal | psych_runtime/a2a/signing.py:128-133 | the key order is total |
| Utf16.CodePointsDiffer | psych_runtime/a2a/signing.py:128-133 | where it departs from code-point order, exactly |
| Utf16.SortedKeysSorts | psych_runtime/a2a/signing.py:154-159 | the keys printed are exactly the object's, strictly increasing by code units |
| Utf16.WritingOrderForgotten | psych_runtime/a2a/signing.py:154-159 | two writings of one object's keys sort to one sequence |
| Utf16.AnyWritingSorts | psych_runtime/a2a/signing.py:154-159 | whatever order the keys were written in, sorting them gives that one order |
| WireForms.BeforeMeans | psych_runtime/a2a/signing.py:128-133 | a key comes before another when it is the front of it, or its first code unit that differs is smaller |
| WireForms.UnitsAre | psych_runtime/a2a/signing.py:128-133 | a character's code units: one in the basic plane, a surrogate pair beyond |
| CanonicalJson.ParseCanonical | psych_runtime/a2a/signing.py:136-160 | the parser inverts the printer for every value with integer numbers |
| CanonicalJson.CanonicalInjective | psych_runtime/a2a/signing.py:136-160 | two values print alike exactly when they are equal up to key order |
| CanonicalJson.CanonicalPrintable | psych_runtime/a2a/signing.py:136-160 | no control character is in a printed value, so it fits on one line |
| CanonicalJson.EscapeBack | psych_runtime/a2a/signing.py:136-151 | the seven short escapes, the other control characters and everything else read back as the character written |
| WireForms.ShortestEscape | psych_runtime/a2a/signing.py:136-151 | no text that reads back as a character is shorter than its escape |
| WireForms.EscapesAre | psych_runtime/a2a/signing.py:136-151 | the seven short escapes, four hexadecimal digits for the other control characters, and everything else as itself |
| WireForms.QuotedIs | psych_runtime/a2a/signing.py:136-151 | a string is its characters' escapes in order between quotes |
| WireForms.ObjectPrintedInOrder | psych_runtime/a2a/signing.py:154-159 | an object is every member once in the one strictly increasing order of its keys' code units, commas between them, in braces |
| WireForms.ListPrinted | psych_runtime/a2a/signing.py:152-160 | a list is its items in order, commas between them, in brackets |
| WireForms.NumbersAre | psych_runtime/a2a/signing.py:99-125 | an integer is decimal digits without a leading zero, signed when negative |
| WireForms.ScalarsAre | psych_runtime/a2a/signing.py:136-151 | null, true, false and zero as they are printed |
| Bytes.EncodeInjective | psych_runtime/a2a/signing.py:136-160 | no two texts share a UTF-8 encoding |
| WireForms.CharactersAre | psych_runtime/a2a/signing.py:136-160 | UTF-8: as many bytes as the first one announces, six bits in each of the others |
| Bytes.B64RoundTrip | psych_runtime/a2a/signing.py:163-171 | base64url decoding inverts encoding for every byte string |
| WireForms.GroupsAre | psych_runtime/a2a/signing.py:163-165 | three bytes are four symbols of six bits, and what is left over is filled up with zero bits, without padding |
| WireForms.SymbolsAre | psych_runtime/a2a/signing.py:163-165 | the alphabet: capitals, small letters, digits, hyphen and underscore |
| WireForms.DecoderIs | psych_runtime/a2a/signing.py:168-171 | the decoder also takes plus and slash, and passes over what is in neither alphabet |
| Bytes.SymbolsDecode | psych_runtime/a2a/signing.py:168-171 | a text of base64url symbols is refused exactly when one symbol is left over |
| Examples.DotDropped | psych_runtime/a2a/signing.py:168-171 | a text with a dot behind its padding decodes |
| Signing.VerifyCard | psych_runtime/a2a/signing.py:313-384 | the first failing entry decides, then some entry must have passed, and all of them if all are required |
| Signing.AcceptedMeans | psych_runtime/a2a/signing.py:313-384 | a card is accepted if and only if no entry fails, some entry passes and, if required, every entry passes |
| WireForms.JudgedMeans | psych_runtime/a2a/signing.py:313-384 | an entry passes exactly when it names a key that is held, under its algorithm, and that key accepts the decoded signature over this payload; it is passed over exactly when the key it names is not held |
| WireForms.FailingMeans | psych_runtime/a2a/signing.py:313-396 | when an entry fails for its header, its key id, its algorithm, its encoding or its signature, exactly |
| WireForms.FirstFails | psych_runtime/a2a/signing.py:313-384 | a card is refused for the first entry that fails, and for its reason |
| WireForms.NoneFails | psych_runtime/a2a/signing.py:313-384 | without a failing entry a card is refused for having none, none under a known key, or not all of them so |
| Signing.UndecodableExactly | psych_runtime/a2a/signing.py:355-371 | an entry under a known key and algorithm fails to decode exactly when its signature, of base64url symbols, leaves one symbol over |
| Examples.OneSymbolUndecodable | psych_runtime/a2a/signing.py:355-371 | a card signed with one symbol is refused by the decoder |
| Signing.PayloadKept | psych_runtime/a2a/signing.py:179-189 | signing never changes the payload |
| WireForms.EntryIs | psych_runtime/a2a/signing.py:275-310 | signing adds one entry behind the others: the header, the signer's signature over the signing input, and the unprotected header |
| WireForms.ProtectedIs | psych_runtime/a2a/signing.py:275-310 | the protected header holds alg, typ, kid and jku if there is one, in canonical JSON |
| WireForms.SigningInputIs | psych_runtime/a2a/signing.py:192-197 | the signing input is the protected header, a dot and the payload in base64url, byte for byte |
| WireForms.WireIs | psych_runtime/a2a/signing.py:179-189 | the payload is the card without any signature; on the wire the signatures are listed in order, each with its protected header, its signature and its unprotected header if set, and not at all when never set |
| Signing.ChainVerifies | psych_runtime/a2a/signing.py:275-384 | after any sequence of signatures the card verifies under the matching verifiers, all required, with every kid in signing order |
| Signing.ReadBackReads | psych_runtime/a2a/signing.py:387-396 | a reader with the property the chain needs exists |
| Signing.SignedBytesCover | psych_runtime/a2a/signing.py:192-197 | two signing inputs are equal exactly when protected header and document are |
| Signing.AlteredRefused | psych_runtime/a2a/signing.py:313-384 | when the keys were used on one card alone, an accepted card has that card's document |
| WorkflowPaths.Segments | psych_runtime/core/workflow_values.py:146-166 | the loop's segments, or None where a character fits nowhere or nothing is named |
| WorkflowPaths.Render | psych_runtime/core/workflow_values.py:225-229 | the loop's text |
| WorkflowPaths.RoundTrip | psych_runtime/core/workflow_values.py:146-229 | parsing inverts printing for every non-empty list of legal names and indices |
| WorkflowPaths.PathsAre | psych_runtime/core/workflow_values.py:146-166 | dots are passed over, and a text with anything else that begins no segment is no path |
| WorkflowPaths.PrintedAs | psych_runtime/core/workflow_values.py:225-229 | an index is printed in brackets, a name behind a dot unless it is first |
| WorkflowPaths.NamesAre | psych_runtime/core/workflow_values.py:146-166 | a name is a letter or an underscore and then those, digits and hyphens |
| WorkflowPaths.OpenIndex | psych_runtime/core/workflow_values.py:146-166 | an index that is not closed is no path |
| WorkflowPaths.ResolvePath | psych_runtime/core/workflow_values.py:169-204 | a path names what its segments name, or fails with the first reason met |
| WorkflowPaths.RootsAre | psych_runtime/core/workflow_values.py:169-204 | what each root names: three always, three inside the body they belong to, no other name |
| WorkflowPaths.OneMoreSegment | psych_runtime/core/workflow_values.py:207-222 | one more segment names that item or field of what was named before, or fails for the first reason there is |
| WorkflowPaths.PrintedFormNamesTheSame | psych_runtime/core/workflow_values.py:169-229 | a path's printed form names the same value in every scope, and a path is its front and then the rest |
| StepIds.HashedBytes | psych_runtime/core/ids.py:136-143 | the bytes fed to the digest, piece by piece, are the encoded pre-image |
| StepIds.HashedAs | psych_runtime/core/ids.py:136-143 | what is hashed: the Run and for each element the separator, its tag and the element |
| StepIds.PositionsApart | psych_runtime/core/ids.py:112-144 | for names without the separator the pre-image tells Run and position apart from every other |
| StepIds.SeparatorCollides | psych_runtime/core/ids.py:136-143 | with the separator allowed in a name two positions share a pre-image |
| StepIds.SpecNamesArePlain | psych_runtime/core/spec.py:100-103 | a name a specification allows has no separator in it |
| WorkflowTree.PlacesDistinct | psych_runtime/core/workflow_view.py:171-209 | no two nodes under a step share a path |
| WorkflowTree.ArmsAre | psych_runtime/core/workflow_view.py:171-209 | where each kind of step puts what it holds |
| WorkflowTree.NodesApart | psych_runtime/core/workflow_view.py:171-209 | no two statically placed nodes of a workflow share a path or a pre-image |

## Left out

- Stores, workers, leases, dispatch, sessions and the agent loop: the log is given, and what a
  producer promises is a named hypothesis (`Pairing.Disciplined`, `TaskStream.Orderly`).
- Record fields no modelled computation reads: timings, durations, finish reasons,
  system prompts, subagent purposes, tasks and deliverables, question structures, requesters.
- Prose: message and error texts are kept as opaque strings or dropped; the corruption reason is kept.
- JSON numbers that are not integers, and their formatting in `_format_number`
  (psych_runtime/a2a/signing.py:99-125), which does not follow ECMAScript at all magnitudes.
- SHA-256, HMAC and the signature schemes: functions the lemmas quantify over.
- `json.loads` beyond canonical text: a function with the one property the chain needs.
- Incremental UTF-8 decoding, HTTP, timeouts and the byte limit around the SSE buffer.
- The report's latency, component and task fields.
- Subtrees.BuildReport: starts from each Run's folded state, so a corrupt log or a missing pinned
  version in the store is not an outcome of the model.
- StateView.RunStateView.FoldToolCallFinished: does not keep the recorded duration, which nothing
  modelled reads.
- StateView.RunStateView.FoldSuspended: does not keep the structured questions, for the same reason.
- Sse.IterSseEvents: takes decoded text; the idle timeout and the byte limit are outside it.
- Sse.PayloadsRoundTrip: a payload is printed with its members in canonical order, where the frame
  writer keeps the order they were written in; values are integers, strings and so on as above.
- WorkflowPaths.Segments: indices are ASCII digits, where the pattern's `\d` also takes other
  Unicode decimal digits.
- WorkflowTree.NodesApart: loop and for-each bodies are placed by the log and are not part of the
  static tree.
- ThreadView.MessageViews: a mapped step input that is a list of pairs is taken to raise, where
  `dict()` would accept it.
- Report.Suspensions: a row is the suspension's record and the resume's, as in the other rows.
- Report.ReportRows: a row is the start record and the end record; the copying of their fields
  into report columns is not modelled.
- Compacting.AlwaysSafe: needs a policy that keeps at least one turn.
- Workflow conditions, schema validation, mappings, `task_of` history truncation, context ids,
  message resolution, version negotiation and the REST error tables: one-branch facts.
