# Verification of the durable dispatch, admission, authoring, review and evidence cores

This project models the parts of the temporal factory prototype, and of the spec review page, whose correctness does not
show in any one function, and proves what they promise over whole runs.

- **Durable A2A dispatch** (`Outcome`, `Dispatch*`, `LostRace*`, `AttemptLoop`, `OutcomeExactly`, `FailureProjection`). Any number of Activity
  attempts of an action begin, send, poll, crash and are retried against one outcome journal, over a network that loses,
  refuses and garbles, towards agents that deduplicate Messages or do not. `Dispatch.dfy` is the step relation, with one
  step for each SQL statement and each message; a ghost history keeps every committed version of every row.
  `DispatchInvariant.dfy` says what each step keeps, `DispatchSteps.dfy` and `DispatchRuns.dfy` prove it,
  `DispatchTheorems.dfy` draws the promises, `DispatchContexts.dfy` those about contexts, and `DispatchCauses.dfy` and
  `DispatchDecisions.dfy` say why each version was written and what each event decides, over events and replies alone. `AttemptLoop.dfy` is the Activity itself, a loop over local variables, proved
  to be a run of the step relation whatever rivals do between its statements, and proved to recover, on the facts of
  `AttemptFacts.dfy`, when no other attempt of the action is under way.
- **Admission** (`Admission`, `AdmissionRuns`, `AdmissionAnswers`, `AdmissionObservation`, `AdmissionFacts`). Several factories share one queue database;
  capacity, order, replay and bounded wait are proved over all runs, and the observation facts are proved stable.
- **Authoring** (`Authoring`, `AuthoringGate`, `AuthoringAcceptance`, `AuthoringEvidence`). The budgeted session as a state machine under any tool calls, and the
  exact condition under which the independent checker agrees with a published session.
- **Review threads** (`ReviewThreads`, `ReviewTheorems`, `ReviewHandoff`, `ReviewPlacement`, `ReviewExactly`,
  `ReviewIngest`). The fold over mutable thread objects, the exact
  effect of a hand-off, and convergence of clients.
- **Agent ledger and release receiver** (`AgentLedger`, `AgentService`, `AgentAnswers`, `ReleaseReceiver`, `ReleaseAnswers`). The other end of the dispatch:
  Tasks, model calls and the test stimulus across restarts, and the two receiver modes. `AgentRefinement.dfy` proves that
  they are the agents the dispatch model speaks of.
- **Redaction** (`Payloads`, `Redaction*`). The in-place history walk, the pure export and the verifier
  agree; each nested payload is digested once; and when the recorded texts determine the places.

## A lost race as written, and as intended

The put that journals a Task id (adapter.py:175) sits inside a `try` whose `except Exception` (adapter.py:191) also catches
`StaleOutcome`. The handler at adapter.py:225-231 says that a lost race is never itself an outcome; for this put the code
does otherwise, and the model follows the code. `Variant.AsWritten` is the code; `Variant.PassesThrough` names its
exceptions, as src/release_delivery.py:280-293 does. All safety theorems (one Task per action, no lost updates, agreement,
one send to an opaque receiver) are proved for both. `LostRaceIsHarmless` holds for `PassesThrough`;
`LostRaceCanLoseTheTask` shows it fails for `AsWritten`; `LostRaceExactly` says exactly when, as an if and only if over
the schedule, and `SequentialAttemptsAreSafe` gives the condition a caller can keep: one attempt after another.

## Assumptions

SQLite statements and transactions are atomic. Digests are injective, so a digest is modelled by what it digests. UUIDs
are fresh. JSON text and values are inverse, no document is longer than its text, and base64 decoding lengthens nothing.
A pin verifies a contract that declares idempotent resend only for an agent that has it
(prototype/temporal-factory/src/agent_binding.py:119-124). Wall-clock deadlines are nondeterministic stops, timestamps are
opaque text. Strings are sequences of Unicode characters.

## Model

| member | source | states |
|---|---|---|
| Outcome.ReachableIsSound | prototype/temporal-factory/src/a2a_outcome.py:92-168 | Any sequence of transition calls, including ones that raise, keeps the record sound (CONFIRMED has a matching receipt, WORKING a Task id, UNKNOWN none and lookups left), keeps its binding and Task id, leaves a terminal record as it is, and takes at most `lookup_limit` lookups in all |
| Outcome.ReachableRecords | prototype/temporal-factory/src/a2a_outcome.py:70-168 | Every record that starts as `submitted` makes it and goes through any calls is sound |
| OutcomeExactly.BeginsExactly | prototype/temporal-factory/src/a2a_outcome.py:70-90 | A record is begun exactly for a complete binding, and starts submitted and blank |
| OutcomeExactly.StartsExactly | prototype/temporal-factory/src/a2a_outcome.py:92-98 | A Task starts from any open record; a missing or different Task id is an incident |
| OutcomeExactly.FinishesExactly | prototype/temporal-factory/src/a2a_outcome.py:100-136 | A Task finishes from a working record only, and confirms exactly with a receipt for its binding, field by field, and its Task |
| OutcomeExactly.SendsExactly | prototype/temporal-factory/src/a2a_outcome.py:119-149 | A send completes or turns unknown from a submitted record only, and confirms exactly with a receipt for the binding |
| OutcomeExactly.LooksUpExactly | prototype/temporal-factory/src/a2a_outcome.py:151-168 | A lookup answers an unknown record only: refused for an opaque receiver, confirmed exactly by a receipt for the binding, and otherwise one lookup used, the last of which is an incident |
| FailureProjection.DecisionOverReachableRecords | prototype/temporal-factory/src/failure_projection.py:38-86 | On such a record the decision never raises; with an acceptance, a matching record and no receipt in hand, the after-release class means exactly CONFIRMED and carries a matching receipt, so the confirmed-without-receipt branch is dead; a lookup is asked for exactly when some lookup or send could still confirm the row |
| FailureProjection.DecisionsExactly | prototype/temporal-factory/src/failure_projection.py:38-86 | For every input: when the decision raises, which class applies, first to last, its reconciliation, and which receipt it carries; no acceptance or receipt is dropped |
| DispatchSteps.KnownMessage | prototype/temporal-factory/services/model_agent.py:219-225 | When a Message reaches an agent that knows its messageId, the Task it finds is that action's and has the same context and content: no fingerprint conflict |
| DispatchSteps.AfterStaleIsOk | prototype/temporal-factory/src/adapter.py:191-196 | Whatever the loser of a race does next, an incident built on its uncommitted WORKING record either follows the winner's equal row or can never be admitted |
| DispatchRuns.ServeKeeps | prototype/temporal-factory/services/model_agent.py:215-246 | Serving any request keeps the invariant: a known messageId makes no second Task, a new one makes the action's first |
| DispatchRuns.PutUpdateKeeps | prototype/temporal-factory/src/a2a_outcome.py:213-229 | The compare-and-set update keeps every row's history a chain of legal transitions, whoever wins |
| DispatchRuns.StepKeepsInv | prototype/temporal-factory/src/adapter.py:110-231 | Every event of the protocol keeps the whole invariant, in both variants of the handler: begin, read-back, send, poll, each half of `put`, crash, lost or refused request, lost or garbled reply, agent progress |
| DispatchTheorems.RunKeepsInv | prototype/temporal-factory/src/a2a_outcome.py:213-251 | After any run the invariant holds, and rows have only gained versions, kept their binding, and stayed put once terminal |
| DispatchTheorems.AtMostOneTaskPerAction | prototype/temporal-factory/src/adapter.py:127-175 | In every run of any interleaving: one action has at most one Task, every Message on the wire carries its row's messageId, contextId, agent and content, and no agent ever sees a conflict |
| DispatchTheorems.NoLostUpdates | prototype/temporal-factory/src/a2a_outcome.py:92-116 | In every run each committed version of a row is exactly one legal transition of the version before, numbered by its place; binding and journaled Task id never change; phases only climb, so a row is written at most four times |
| DispatchTheorems.Agreement | prototype/temporal-factory/src/adapter.py:134-141 | Two attempts of one action that return a decided result, at any two moments of any run, return the same one, that of the row, which is terminal and never changes again |
| DispatchTheorems.TerminalRowsAreFixed | prototype/temporal-factory/src/a2a_outcome.py:220-228 | A CONFIRMED or INCIDENT row, and its history, never change again in any continuation of any run |
| DispatchContexts.OneContextPerRunAndAgent | prototype/temporal-factory/src/a2a_outcome.py:186-195 | In every run: a stored context is never changed or removed; no two pairs of run and agent share one; and two rows have the same context if and only if they have the same run and agent, that context being the stored one |
| DispatchCauses.EveryVersionIsCaused | prototype/temporal-factory/src/adapter.py:110-251 | In every run every version of every row after its first was caused by one event of one attempt of the action: a Task heard, a send without an answer, a failed pin, a reply that does not fit, or a lost race, each said over the event and the reply |
| DispatchCauses.RepliesAreTrue | prototype/temporal-factory/services/model_agent.py:215-250 | Every Task in a reply is one an agent held, as it stood at some moment |
| DispatchCauses.ReceiptsAreTrue | prototype/temporal-factory/src/adapter.py:254-270 | In every run the receipt of a confirmed row names its action, run, definition, Message and Task, its context and its author, the pinned agent, and holds the text of the single text Part of the single artifact with which the action's Task was completed, in the action's context, at some moment of the run |
| DispatchCauses.ReceiptIsTheTasks | prototype/temporal-factory/src/adapter.py:254-270 | Where completed Tasks are not worked again, that is the Task as it now stands |
| DispatchCauses.AnswersAreTrue | prototype/temporal-factory/src/adapter.py:134-141 | In every run a returned receipt is the confirmed row's, and true; an unresolved answer carries the row's action, Task and reason, and some event of an attempt of the action explains the reason |
| DispatchDecisions.SendReplyDecides | prototype/temporal-factory/src/adapter.py:171-196 | A send's answer is journaled as a Task exactly if it fits, and is an incident otherwise |
| DispatchDecisions.PollReplyDecides | prototype/temporal-factory/src/adapter.py:200-223 | A poll's answer: completed settles, ended and unfit are incidents, still under way is polled again |
| DispatchDecisions.TimeoutDecides | prototype/temporal-factory/src/adapter.py:180-190 | A send without an answer is journaled unknown once, then resent, or given up for an opaque receiver; a poll is made again |
| DispatchDecisions.BeginDecides | prototype/temporal-factory/src/adapter.py:128-146 | A begun row is refused for other arguments, returned if terminal, given up if opaque and someone else's, and otherwise gone on from |
| DispatchDecisions.CommitDecides | prototype/temporal-factory/src/adapter.py:173-251 | A put that commits makes the row, and the attempt returns its end, resends, gives up, settles or polls |
| DispatchDecisions.StaleDecides | prototype/temporal-factory/src/adapter.py:191-231 | A stale put blames a Task id as written, and otherwise leads to a reread; the journal stays |
| DispatchDecisions.RereadDecides | prototype/temporal-factory/src/adapter.py:225-231 | A reread tells a terminal row's end, or stays pending |
| DispatchDecisions.VerifiedDecides | prototype/temporal-factory/src/adapter.py:164-172 | A verified pin sends the journaled Message of an action without a Task, and polls one with a Task |
| DispatchTheorems.MisdeclaredNeverSends | prototype/temporal-factory/src/agent_binding.py:119-124 | An action whose contract declares idempotent resend for an agent that does not have it sends no Message and gets no Task, in any run: the pin stops it |
| AgentRefinement.AcceptRefinesHandle | prototype/temporal-factory/services/model_agent.py:215-246 | The ledger's `accept` is what the dispatch model lets a deduplicating agent do with a Message: same Task in the answer, a new one in the same cases, refused in the same cases, and what the dispatch model knows of the agent stays its ledger |
| AgentRefinement.FinishIsProgress | prototype/temporal-factory/services/model_agent.py:290-310 | A Task settled by `finish` is one progress event of the dispatch model; a `finish` that raises is none |
| AgentRefinement.DeliverRefinesHandle | prototype/temporal-factory/services/release_server.py:142-197 | A delivery to the opaque receiver is, in the dispatch model, a Message handled by an agent that does not deduplicate, then the progress of its new Task |
| DispatchTheorems.OpaqueSendsOnce | prototype/temporal-factory/src/adapter.py:142-187 | An action of an opaque receiver causes at most one SendMessage, and so at most one effect, over all its attempts, retries and crashes |
| LostRace.LostRaceIsHarmless | prototype/temporal-factory/src/release_delivery.py:280-293 | With a handler that lets StaleOutcome through, a run without faults never leaves a participating action in an incident, whatever races, timeouts and crashes occur |
| LostRace.OnlyTheLostRaceMakesIncidents | prototype/temporal-factory/src/adapter.py:191-196 | As written, in a run without faults, an incident row of a participating action blames the binding of the Task and replaced a WORKING row that names the same Task; when that happens is the next row's statement |
| LostRaceExactly.LostRaceExactly | prototype/temporal-factory/src/adapter.py:175-231 | As written, in a run without faults, a participating row is an incident if and only if there are events k < m and an attempt such that at k its put of the Task id finds the row to be already the very record it was putting, and at m it writes its incident over that row, unchanged since |
| LostRaceExactly.SequentialAttemptsAreSafe | prototype/temporal-factory/src/adapter.py:110-231 | The condition a caller can keep: if each attempt of an action starts only after all its earlier attempts have returned or crashed, a run without faults never ends the participating action in an incident |
| LostRaceExactly.StillTheRow | prototype/temporal-factory/src/a2a_outcome.py:213-229 | A put of a Task id that goes stale, and whose incident is later stored, lost to an equal record, and that record is the row at both moments |
| LostRaceRun.LostRaceCanLoseTheTask | prototype/temporal-factory/src/adapter.py:175-196 | A concrete run without faults in which it happens: the caller gets an unresolved incident while the one Task completes with a valid artifact |
| AttemptLoop.Host.ContextFor | prototype/temporal-factory/src/a2a_outcome.py:186-195 | Returns the context the table already held for the run and agent, and otherwise stores the one it returns; no stored context changes; refused exactly when either identity is empty |
| AttemptLoop.Host.Begin | prototype/temporal-factory/src/a2a_outcome.py:231-251 | Insert-or-ignore, read back, compare the binding: the step relation's `Decide` on what is read, whatever others do in between; with peaceful rivals a row of these arguments is returned as it is, with `created` false |
| AttemptLoop.Host.Put | prototype/temporal-factory/src/a2a_outcome.py:213-229 | Stored or stale as the step relation says, with rivals between the read and the update; with peaceful rivals an admissible record is stored and is the row |
| AttemptLoop.Host.OnStale | prototype/temporal-factory/src/adapter.py:225-231 | The handler's answer is that of the row it reads, or pending |
| AttemptLoop.Host.FinishTask | prototype/temporal-factory/src/adapter.py:236-270 | A completed Task with a valid artifact confirms the row, with the receipt that names the Task and the row's binding and holds the artifact's text |
| AttemptLoop.Host.JournalTask | prototype/temporal-factory/src/adapter.py:173-199 | The send's reply: the Task id is journaled and the loop goes on to poll, or finishes at once on a Task already completed, or ends in the incident of each failure |
| AttemptLoop.Host.Uncertain | prototype/temporal-factory/src/adapter.py:180-190 | A send without an answer: journaled unknown, then resent by a participating receiver and ended in an incident by an opaque one |
| AttemptLoop.Host.Dispatch | prototype/temporal-factory/src/adapter.py:165-199 | Send or resend and what becomes of it, refining the step relation; towards a deduplicating agent, with peaceful rivals, it ends only by recovering |
| AttemptLoop.Host.Contact | prototype/temporal-factory/src/adapter.py:165-199 | One turn up to the poll: the Task's state is at least what the turn makes of it, a first Message that arrives having made it and progress having moved it, and what was lost or late changes nothing else |
| AttemptLoop.Host.Observe | prototype/temporal-factory/src/adapter.py:200-223 | One poll and its decision; with peaceful rivals, a poll that is answered and finds the Task completed, whenever that happened, recovers, and any other goes on |
| AttemptLoop.Host.Reject | prototype/temporal-factory/src/adapter.py:153-163 | A pin that fails or a missing capability ends in its incident |
| AttemptLoop.Host.InvokeAsync | prototype/temporal-factory/src/adapter.py:110-231 | The whole attempt loop, with arbitrary rivals between any two statements, is a run of the step relation ending in its answer. Recovery: from any reachable non-terminal row of a deduplicating receiver whose Task is healthy, if no other attempt of the action is under way, requests and replies are only lost, late or arrive, and in some turn pin, send and poll all go through with the Task completed by then (in that turn, in an earlier one, or before the attempt began), it returns the receipt, the row is CONFIRMED, and both name the action's Task. In a deployment that started empty, a returned receipt is true, and where completed Tasks are not worked again it holds the text of the action's Task as that now stands |
| AttemptFacts.SendAnswered | prototype/temporal-factory/services/model_agent.py:215-246 | A Message that reaches the agent is answered with the action's healthy Task in the journaled context |
| AttemptFacts.PollAnswered | prototype/temporal-factory/src/adapter.py:200-204 | A poll by the journaled Task id is answered with that Task as it now is |
| AttemptFacts.PeacefulRun | prototype/temporal-factory/src/adapter.py:110-231 | However long others run, delivering late requests, working other actions and completing Tasks, the action's row stays, its Task does not go back, and a request of this attempt is still out or fitly answered |
| Admission.AdmissionQueue.constructor | prototype/temporal-factory/src/admission.py:73-78 | A queue object exists only after its capacity was accepted and stored |
| Admission.AdmissionQueue.PromoteAvailable | prototype/temporal-factory/src/admission.py:158-175 | Row by row, it admits exactly the waiting rows at positions 1 to the number of free slots and returns them oldest first |
| Admission.AdmissionQueue.Enqueue | prototype/temporal-factory/src/admission.py:201-223 | Result and tables after `enqueue`, error cases included |
| Admission.AdmissionQueue.AdmitWaiting | prototype/temporal-factory/src/admission.py:225-229 | Tables after `admit_waiting`, and the view of each row it admitted |
| Admission.AdmissionQueue.Release | prototype/temporal-factory/src/admission.py:231-265 | Result, tables and stored receipt after `release`, error cases and replay included |
| Admission.AdmissionQueue.ReadSnapshot | prototype/temporal-factory/src/admission.py:315-353 | One pass counts each state and lists the factory's rows in sequence order; it raises exactly when more are admitted than the capacity |
| AdmissionAnswers.EnqueueAnswers | prototype/temporal-factory/src/admission.py:201-223 | In every reachable store `enqueue`, case by case, over the rows: refused and unchanged for blank or conflicting identities; a known request is shown its row; a new one gets the last row, admitted at once exactly when fewer rows are admitted than there are slots, and is shown every field of it and, while it waits, how many wait no later |
| AdmissionAnswers.ReleaseAnswers | prototype/temporal-factory/src/admission.py:231-265 | In every reachable store `release`, case by case: it frees a slot exactly when the request holds one and the release identity is new; it then shows the request as released, and as admitted exactly the one that waited longest, or nobody if nobody waited; the receipt keeps that answer; a replay returns it; every other case is refused and changes nothing |
| AdmissionAnswers.ConfigureAnswers | prototype/temporal-factory/src/admission.py:148-156 | A capacity is accepted exactly for a named factory that has none yet or has this one; no other factory's changes |
| AdmissionAnswers.AdmitWaitingAnswersNobody | prototype/temporal-factory/src/admission.py:225-229 | On every reachable store `admit_waiting` finds nobody to admit |
| AdmissionAnswers.ListingShows | prototype/temporal-factory/src/admission.py:315-353 | The listing shows every row of the factory once, in sequence order, field by field |
| Admission.WaitingListIsWaiting | prototype/temporal-factory/src/admission.py:165-167 | The rows selected for promotion are the waiting ones, the k-th at queue position k |
| AdmissionRuns.FillDoesNothing | prototype/temporal-factory/src/admission.py:225-229 | In a good state promotion changes nothing: nobody waits while a slot is free |
| AdmissionRuns.AppendedFill | prototype/temporal-factory/src/admission.py:218-223 | A new request is admitted at once exactly when a slot is free, and no other row moves |
| AdmissionRuns.FreedFill | prototype/temporal-factory/src/admission.py:253-258 | A release hands its slot to the oldest waiting request, if any, and moves nothing else |
| AdmissionRuns.ApplyKeeps | prototype/temporal-factory/src/admission.py:158-265 | Every transaction keeps the invariant, only moves rows forward, and leaves the rows, receipts and capacity of other factories alone |
| AdmissionRuns.RunKeeps | prototype/temporal-factory/src/admission.py:158-265 | So does every run |
| AdmissionRuns.CapacityAndOrder | prototype/temporal-factory/src/admission.py:289-353 | In every reachable state: admitted at most capacity; somebody waits only when all slots are held; rows leave the queue in sequence order; `admit_waiting` changes nothing; the readers' count error is unreachable |
| AdmissionRuns.IdentitiesAreUnique | prototype/temporal-factory/src/admission.py:121-147 | In every reachable state no UNIQUE constraint can fire, and released rows and release receipts correspond |
| AdmissionRuns.ReleaseReplays | prototype/temporal-factory/src/admission.py:240-248 | Replaying a successful release after any later transactions returns the original result and changes nothing |
| AdmissionRuns.EnqueueReplays | prototype/temporal-factory/src/admission.py:207-213 | In every reachable state, enqueuing the request of any row with its Task changes nothing and shows that row |
| AdmissionRuns.FreedPositions | prototype/temporal-factory/src/admission.py:249-258 | A slot freed admits the first waiter and lowers every other position by exactly one |
| AdmissionRuns.KeptPositions | prototype/temporal-factory/src/admission.py:201-248 | Nothing else changes a waiting position: enqueues, replays, failed releases, `admit_waiting`, other factories |
| AdmissionRuns.BoundedWait | prototype/temporal-factory/src/admission.py:158-195 | A request at position p is admitted by exactly the p-th later slot its factory frees; before that its position is p less the slots freed |
| AdmissionObservation.Project | prototype/temporal-factory/src/admission_observation.py:54-157 | The projection succeeds exactly when the capacity view agrees and no row is refused, and returns every row's records in order with the capacity |
| AdmissionObservation.ProjectRow | prototype/temporal-factory/src/admission_observation.py:93-147 | One row's records, or its first refusal |
| AdmissionObservation.RowRecordsProve | prototype/temporal-factory/src/admission_observation.py:120-147 | A row's records are exactly the transitions it proves: a released row still proves its admission |
| AdmissionFacts.FactsExactly | prototype/temporal-factory/src/admission_observation.py:93-147 | The projection succeeds exactly when every row passes its checks, and is then the facts of the rows, row by row: which transitions, at which of the row's times, for which run, context, Task and capacity |
| AdmissionObservation.SourceIdInjective | prototype/temporal-factory/src/admission_observation.py:48-51 | The length-prefixed source id determines request and state, even when the request id holds colons |
| AdmissionObservation.FactsAreStable | prototype/temporal-factory/src/admission_observation.py:126-147 | An admitted or released fact once projected appears unchanged in every later projection of any run |
| AdmissionObservation.SourceIdsNameOneFact | prototype/temporal-factory/src/admission_observation.py:131-147 | No source id names two different facts, in one projection or in two at different times |
| Authoring.Session.CheckToolCall | prototype/temporal-factory/src/authoring.py:234-248 | Which stop reason applies, in the source's order, or one more tool call counted |
| Authoring.Session.EvaluateDraft | prototype/temporal-factory/src/authoring.py:250-285 | State after an evaluation: a draft seen before gets its first verdict and no new round |
| Authoring.Session.DescribeVocabulary | prototype/temporal-factory/src/authoring.py:287-292 | State after the tool call |
| Authoring.Session.StreamModel | prototype/temporal-factory/src/authoring.py:139-147 | A model call is counted exactly when none of the three limits stops it |
| AuthoringGate.GateExactly | prototype/temporal-factory/src/authoring.py:234-285 | In every reachable session a tool call runs, is recorded and counted if and only if no reason is set, it is in time, fewer than `max_tool_calls` were made, and fewer than `max_rounds` rounds exist or it evaluates a draft some round found valid; then what it records and how it judges; otherwise it sets the first reason that applies and changes nothing else |
| AuthoringGate.ValidDraftsCanBeSubmitted | prototype/temporal-factory/src/authoring.py:240-284 | After the round limit as before it, a timely submission of any draft found valid is the last submission, and the session can end approved with its package |
| AuthoringGate.ModelCallsExactly | prototype/temporal-factory/src/authoring.py:139-147 | A model call is counted if and only if no reason is set, it is in time and calls are left; it touches nothing else |
| AuthoringGate.EndsExactly | prototype/temporal-factory/src/authoring.py:302-371 | When a session ends aborted, for which reason, failed, approved or without a submission |
| Authoring.StepKeeps | prototype/temporal-factory/src/authoring.py:234-285 | Every tool or model call keeps rounds, `seen`, `accepted`, the call list and the budgets in step |
| Authoring.BudgetsAndRounds | prototype/temporal-factory/src/authoring.py:234-285 | Under any calls: no budget is exceeded; rounds are numbered, hold distinct drafts and match `seen` and `accepted`; every evaluation of one draft gave the same verdict |
| Authoring.OnlyAcceptedDraftsAfterTheLimit | prototype/temporal-factory/src/authoring.py:240-243 | After the round limit only an evaluation of an already accepted draft gets through, and it makes no round |
| Authoring.StopFreezes | prototype/temporal-factory/src/authoring.py:236-237 | A set stop reason freezes the whole session, model calls included |
| Authoring.ApprovedExactly | prototype/temporal-factory/src/authoring.py:338-371 | A session ends approved exactly when the agent ended by itself in time, nothing stopped it and some submission succeeded; the package is that of the last that did |
| AuthoringAcceptance.AuthoringAcceptance | prototype/temporal-factory/scenarios/live_authoring.py:86-181 | The early returns accept exactly the acceptable records, report the last submitted digest, and give a reason only when what it names is the case, the first in order |
| AuthoringAcceptance.CallFault | prototype/temporal-factory/scenarios/live_authoring.py:139-165 | The tests of the evaluating calls and of the pinned submission |
| AuthoringAcceptance.RepairMissing | prototype/temporal-factory/scenarios/live_authoring.py:166-180 | The synthetic provider's demands on the repair loop |
| AuthoringAcceptance.FeedbackCasesPresent | prototype/temporal-factory/scenarios/live_authoring.py:184-191 | The loop over the path finds the cases exactly when they are entries of the mapping the path leads to |
| AuthoringEvidence.AcceptedExactly | prototype/temporal-factory/scenarios/live_authoring.py:86-181 | A record is accepted exactly on its evidence, said over its calls, rounds and claims: budgets, grounded verdicts backed by rounds, a validation before every submission, and a last submission whose package everyone pins |
| AuthoringEvidence.ClaimsFollowFromCalls | prototype/temporal-factory/scenarios/live_authoring.py:115-165 | The calls of an accepted record determine its exit code, statuses, approval and digests: altering any of them alone gets it rejected |
| AuthoringEvidence.InvalidRoundsExactly | prototype/temporal-factory/scenarios/live_authoring.py:94-98 | The invalid rounds among the facts are the record's, each as often as the record has it |
| AuthoringAcceptance.OrderAgrees | prototype/temporal-factory/scenarios/live_authoring.py:135-140 | On a session's record the order test is: the first validation precedes every submission, and there is one |
| AuthoringAcceptance.RowsAreStructured | prototype/temporal-factory/scenarios/live_authoring.py:128-148 | Every round and call a session records passes the structure and round tests |
| AuthoringAcceptance.PinAgrees | prototype/temporal-factory/scenarios/live_authoring.py:149-165 | On such a record the pin tests hold exactly when the last submission succeeded |
| AuthoringAcceptance.CheckerAgreesWithSession | prototype/temporal-factory/scenarios/live_authoring.py:86-181 | The record of an approved, published session is accepted exactly when its first validation precedes its first submission and its last submission succeeded |
| AuthoringAcceptance.PublishedButRejected | prototype/temporal-factory/src/authoring.py:282-283 | Two concrete published sessions the checker rejects: one never validates, one ends with a failed submission after a successful one |
| ReviewThreads.ThreadObject.Append | docs/specs/.viz/runtime.js:619-627 | A reply is pushed; a human's becomes the latest and a draft or pending; an agent's answer to the latest sets the status |
| ReviewThreads.ThreadObject.Replace | docs/specs/.viz/runtime.js:635-641 | An edit takes its place, and the thread's own event when that place is the first |
| ReviewThreads.Folder.Comment | docs/specs/.viz/runtime.js:608-613 | A comment makes a new thread object; the maps and the heap of objects stay in step |
| ReviewThreads.Folder.Reply | docs/specs/.viz/runtime.js:615-629 | A reply changes the addressed thread object only |
| ReviewThreads.Folder.Edit | docs/specs/.viz/runtime.js:630-643 | An edit changes the object and place of the message it supersedes, through whichever reference |
| ReviewThreads.Folder.Status | docs/specs/.viz/runtime.js:644-648 | A status changes the addressed thread's status only |
| ReviewThreads.FoldThreads | docs/specs/.viz/runtime.js:599-651 | The loop over mutable thread objects returns the threads, and their insertion order, of the fold on values |
| ReviewExactly.RepliesFindTheirThread | docs/specs/.viz/runtime.js:615-629 | With distinct ids, in every fold: a reply goes last in the thread of the comment its thread id names, or, naming none, of the thread that shows the message it responds to, be it comment, reply or edit; a status sets that thread's status; no other thread changes; and a reply is left out exactly when it leads to no earlier thread |
| ReviewExactly.EveryEventIsTakenIn | docs/specs/.viz/runtime.js:606-649 | With distinct ids, what each event of the list does to the threads, edits included, or that it changes nothing |
| ReviewExactly.ThreadsExactly | docs/specs/.viz/runtime.js:599-651 | With distinct ids, the threads are those the human comments open, and each shows, at each of its places, the last event that the list gives that place; its latest human message is the last event of a human in it |
| ReviewExactly.StatusesExactly | docs/specs/.viz/runtime.js:606-648 | With distinct ids, a thread's status is what the last event of the list that sets it gives |
| ReviewExactly.HandoffButtonExactly | docs/specs/.viz/runtime.js:680-685 | With distinct ids, the button counts the draft threads, offers to finish exactly when nothing is undecided and every thread is resolved, and is enabled when there is a draft or the review can finish; threads come in the order of their comments |
| ReviewTheorems.HandoffPublishesDrafts | docs/specs/.viz/runtime.js:599-651 | A hand-off appended as the newest event turns every draft into pending and changes nothing else (messages, places, own events, latest human messages, order); no draft remains; provided no event carries the status "draft" (the exact effect without the proviso: HandoffExactly) |
| ReviewHandoff.HandoffExactly | docs/specs/.viz/runtime.js:599-651 | A newest hand-off, with no proviso: a thread whose status was last set by an event carrying "draft" stays the draft it was, every other draft becomes pending, and nothing else differs |
| ReviewHandoff.DraftAfterHandoffExactly | docs/specs/.viz/runtime.js:599-651 | After it a thread is a draft if and only if the last event that set its status carried "draft": a status event, or an agent's answer to the latest human message |
| ReviewHandoff.StatusIsLastGiven | docs/specs/.viz/runtime.js:606-648 | In every fold a thread's status is what the last event that set it gave: its own, or draft or pending by the last hand-off |
| ReviewTheorems.DraftStatusOutlivesHandoff | docs/specs/.viz/runtime.js:644-648 | The proviso is needed: a draft set by an agent's status event survives a later hand-off |
| ReviewTheorems.HandoffThenFinish | docs/specs/.viz/runtime.js:680-685 | After a hand-off there are no drafts, and a second is enabled only to finish: nothing undecided and every thread resolved |
| ReviewTheorems.ThreadsAreWhole | docs/specs/.viz/runtime.js:599-651 | With distinct ids, a thread's own event is its first message, its latest human message is among its messages, and every placed message is shown at its place by itself or by a later event given that place |
| ReviewTheorems.EditsKeepTheirPlace | docs/specs/.viz/runtime.js:630-643 | With distinct ids, an edit of a placed message has that message's place in the final fold |
| ReviewTheorems.SortedIsUnique | docs/specs/.viz/runtime.js:707 | A set of events has one order by name |
| ReviewIngest.SortByName | docs/specs/.viz/runtime.js:707 | Sorting keeps the events and, with distinct names, orders them strictly |
| ReviewIngest.ReviewState.Ingest | docs/specs/.viz/runtime.js:696-716 | One `ingest`: with distinct names the events end up the sorted set of those held and those polled, each once; the thread objects are their fold; only threads still resolved stay expanded; whatever the names, every actor and name held or polled is held, once if it was |
| ReviewIngest.ReviewState.Prune | docs/specs/.viz/runtime.js:709-711 | Exactly the resolved threads stay expanded |
| ReviewIngest.IngestAll | docs/specs/.viz/runtime.js:696-716 | If a name belongs to one event throughout the batches, a client that ingests them one after the other reaches a list `Reaches` speaks of, each step sorted and complete |
| ReviewIngest.TwoClients | docs/specs/.viz/runtime.js:696-716 | Two clients that ingest the same events, each name naming one event, in any batches, overlaps, repetitions and orders, end with the same list, the sorted set of those events, and the same threads |
| ReviewIngest.ClientsConverge | docs/specs/.viz/runtime.js:696-712 | The relational form: two lists reached from batches with the same events are equal, are the sorted set of those events, and fold the same threads; distinct names, which IngestAll asks for, are necessary |
| ReviewIngest.OneBatchSuffices | docs/specs/.viz/runtime.js:696-712 | A list that one `ingest` of all batches together gives is the one the batches give one by one |
| AgentService.LedgerObject.AcceptMessage | prototype/temporal-factory/services/model_agent.py:215-246 | Result and tables after `accept`, error cases included |
| AgentService.LedgerObject.FinishTask | prototype/temporal-factory/services/model_agent.py:290-310 | Result and tables after `finish`; a transaction that raises changes nothing |
| AgentLedger.FinishShape | prototype/temporal-factory/services/model_agent.py:290-310 | A `finish` that commits settles one working Task and logs at most one row; that row is new, is the only one of its Task, and tells the digest and content the Task now serves |
| AgentAnswers.AcceptAnswers | prototype/temporal-factory/services/model_agent.py:215-246 | In every reachable ledger: a known Message is answered with its Task or refused, and changes nothing; a new one opens a working Task with its content, in its own context or a new one |
| AgentAnswers.FinishAnswers | prototype/temporal-factory/services/model_agent.py:290-310 | In every reachable ledger `finish` commits exactly when the Task still works and a stimulus row, if any, is about this Task and tells its artifact; then the Task is completed with the artifact or failed without one |
| AgentAnswers.StartAnswers | prototype/temporal-factory/services/model_agent.py:320-330 | A Task's call gets the next number, counting its calls, and the fourth is refused |
| AgentAnswers.ArmAnswers | prototype/temporal-factory/services/model_agent.py:359-377 | When a stimulus is armed, exactly, and how |
| AgentAnswers.DueExactly | prototype/temporal-factory/services/model_agent.py:395-410 | The stimulus due to a context is the one bound to it, if it covers the revision |
| AgentAnswers.LoggedExactly | prototype/temporal-factory/services/model_agent.py:379-393 | The row found for a Task and a revision is the Task's one log row, if it is of that revision |
| AgentAnswers.ProducedExactly | prototype/temporal-factory/services/model_agent.py:612-636 | The draft is the first parsed, if every turn before it was merely unparsed and the calls left reach that far |
| AgentService.LedgerObject.StartCall | prototype/temporal-factory/services/model_agent.py:320-330 | The next call number, or refusal after the third |
| AgentService.LedgerObject.EndCall | prototype/temporal-factory/services/model_agent.py:332-341 | The call's outcome is overwritten |
| AgentService.LedgerObject.ArmStimulus | prototype/temporal-factory/services/model_agent.py:359-377 | A stimulus is armed exactly when controls are on, it is valid and none is armed |
| AgentService.LedgerObject.ApplyStimulus | prototype/temporal-factory/services/model_agent.py:395-424 | A committed row is served again; a due stimulus is planted under the smallest number no claim has, at most one more than the claims; otherwise the draft is unchanged |
| Prelude.FirstFree | prototype/temporal-factory/services/model_agent.py:412-415 | Counting up from 1 finds the first name not taken, at the latest one past as many names as are taken |
| AgentService.Service.Draft | prototype/temporal-factory/services/model_agent.py:612-636 | The first draft that parses within the calls left, unless a limit or an error comes first; one call row for each turn made, with how it ended |
| AgentService.Service.Work | prototype/temporal-factory/services/model_agent.py:587-648 | Left to run, it ends a working Task and touches no other; the Task completes exactly when a draft was prechecked or came within the calls left, and serves it, planted with the stimulus due, which is logged; every call made is recorded |
| AgentService.NothingLogged | prototype/temporal-factory/services/model_agent.py:596-600 | A Task still working has no log row: the branch that recovers one is dead |
| AgentLedger.NotLogged | prototype/temporal-factory/services/model_agent.py:306-310 | No log row belongs to a Task still working |
| AgentLedger.ApplyKeeps | prototype/temporal-factory/services/model_agent.py:215-377 | Every transaction keeps the ledger's invariant and only moves it forward |
| AgentService.TasksEndOnce | prototype/temporal-factory/services/model_agent.py:290-330 | Across restarts and overlapping workers: a Task leaves working at most once and then never changes, has an artifact exactly when completed, and makes at most three calls, numbered in order |
| AgentService.StimuliBindOnce | prototype/temporal-factory/services/model_agent.py:235-310 | Each stimulus and each context are bound at most once and stay bound; a log row exists only for a completed Task, tells exactly what it serves, and is the only one of its Task |
| AgentService.ArmedStimulusFindsItsContext | prototype/temporal-factory/services/model_agent.py:235-245 | An armed stimulus binds to a new Task's context exactly when no Task had it before and controls are on |
| AgentService.MessagesAreIdempotent | prototype/temporal-factory/services/model_agent.py:219-225 | Resending a Message at any later time returns its first Task and changes nothing; other content under its id is refused |
| ReleaseReceiver.Store.DeliverMessage | prototype/temporal-factory/services/release_server.py:142-197 | Result and rows after `deliver`, in both modes, error cases included |
| ReleaseAnswers.DeliveriesExactly | prototype/temporal-factory/services/release_server.py:142-197 | After any deliveries, the next one case by case: refused, a known Message's own row with one more send, other content refused, or a new row whose outcome, length, effect and reason follow from the Message's parts |
| ReleaseReceiver.SendsCountAnswers | prototype/temporal-factory/services/release_server.py:166-197 | `sends` sums to the answered deliveries, in both modes |
| ReleaseReceiver.ParticipatingEffectsAreDistinct | prototype/temporal-factory/services/release_server.py:161-197 | Participating: the effects are exactly as many as the distinct messageIds accepted with a deliverable document |
| ReleaseReceiver.OpaqueRepeatsEffects | prototype/temporal-factory/services/release_server.py:161-197 | Opaque: every answered deliverable Message is a new effect |
| ReleaseReceiver.ResendReturnsSameTask | prototype/temporal-factory/services/release_server.py:166-174 | Participating: resending a Message returns the Task and receipt of its first delivery |
| Redaction.Walk | prototype/temporal-factory/scenarios/single_factory.py:375-391 | The history walk leaves the tree `_redact_export` returns and records the text of every redacted place in document order |
| Redaction.RedactHistory | prototype/temporal-factory/scenarios/single_factory.py:368-400 | Refused exactly when nothing was redacted |
| Redaction.PlacesAreTopmost | prototype/temporal-factory/scenarios/single_factory.py:375-391 | The redacted places are exactly the topmost sensitive keys, and none lies inside another |
| RedactionTexts.TextsCollide | prototype/temporal-factory/scenarios/single_factory.py:375-391 | The recorded texts do not determine the places: for all plain keys x and y, {"x.y": {"token": ..}, "x": {"y": {"token": ..}}} records two different places under one text |
| RedactionTexts.TextsDeterminePlaces | prototype/temporal-factory/scenarios/single_factory.py:375-391 | They do when no two plain keys side by side, outside the sensitive values, are confusable, that is, one is the other followed by what reads like steps (a dot and anything, or indexes) |
| RedactionTexts.ConfusableExactly | prototype/temporal-factory/scenarios/single_factory.py:375-391 | That condition is exact for a pair of keys: some document with just those two keys records one text for a place under each if and only if they are confusable |
| RedactionTexts.PlainKeysAreNotConfused | prototype/temporal-factory/scenarios/single_factory.py:375-391 | It holds of every document whose keys have neither a dot nor a bracket |
| Payloads.Collect | prototype/temporal-factory/scenarios/single_factory.py:348-365 | The generator yields an object's own decoded payload, those within that payload, then those of its children |
| Payloads.EachPayloadIsDigestedOnce | prototype/temporal-factory/scenarios/single_factory.py:348-385 | The digests that stand for a redacted value are those of its payloads, exactly one for each place, in the value or in a document one of its payloads decodes to, that carries one, in the order of the places |
| Redaction.Verifier.Walk | prototype/temporal-factory/scenarios/sf_attest.py:69-101 | The counter grows by the violations of the value, decoded payloads included |
| RedactionFindings.VerifierExactly | prototype/temporal-factory/scenarios/sf_attest.py:69-101 | In any document, redacted or not, no violations exactly when every sensitive field shown holds the stub, in either order of its keys, nothing shown is a token or too deep, and the same holds of whatever its strings decode to |
| RedactionCount.CountsEachOnce | prototype/temporal-factory/scenarios/sf_attest.py:69-101 | The count is the number of violations, each counted once: the paths, into decoded payloads too, that lead to a token, to a sensitive field without its stub or beyond the depth bound |
| RedactionOrder.RecordedInOrder | prototype/temporal-factory/scenarios/single_factory.py:375-391 | The walk records every redacted field exactly once, in document order |
| RedactionFindings.ExportKeepsTheRest | prototype/temporal-factory/scenarios/single_factory.py:403-420 | Redaction changes nothing outside the sensitive values: leaves, lengths, keys and their order stay, and each sensitive value gives way to the digest of its text and of its payloads |
| Redaction.DigestedPasses | prototype/temporal-factory/scenarios/sf_attest.py:75-83 | What redaction leaves has the shape the verifier accepts |
| Redaction.VerifierFindsNothing | prototype/temporal-factory/scenarios/sf_attest.py:69-101 | No violations in a redacted tree exactly when everything outside its sensitive keys lies within depth 20 and no string there is a token or a base64 document with violations of its own |

## Left out

- The release Activity (src/release_delivery.py): only its exception handling is used, as the variant that lets StaleOutcome through.
- Node output modes "message" and "none", hand-off item descriptions, usage records and log lines in `_finish`: the model covers artifact output, whose receipt it journals.
- The Agent Card checks behind `resolve_pinned`: a pin is verified, fails, is uncertain or lacks the capability.
- AttemptLoop.Host.InvokeAsync: an attempt's own crash is an event of the step relation only; the loop itself always runs to its answer, and its deadline is the end of the given turns.
- AttemptLoop.Host.Put: a missing row, which the source answers with ValueError, is shown unreachable by the invariant and has no branch.
- DispatchTheorems.Agreement: it speaks of decided results; an attempt may also end pending or raised.
- Admission.AdmissionQueue.constructor: the refusal of a different capacity is in `Configure`; a constructor that raises makes no object.
- Admission.AdmissionQueue.Enqueue: one reading of the clock serves all promotions of a call; on reachable states there is at most one.
- Admission.AdmissionQueue.ReadSnapshot: `capacity_view`, `list_requests` and `get` read the same rows and counts and are not repeated; blank text is judged by ASCII white space only.
- AdmissionObservation.Project: whether text is a time with a zone is a parameter, and the checks of Python types have no counterpart.
- Authoring.Session.EvaluateDraft: parsing, materializing and validating a draft are one verdict, which may differ at every call; each tool call is one step.
- Authoring.ApprovedExactly: the approval's second validation of the same package gives the same digest.
- AuthoringAcceptance.AuthoringAcceptance: a field that is absent or of another type is None; a path is given split at its dots.
- ReviewThreads.FoldThreads: an absent field is the empty string.
- ReviewIngest.ReviewState.Ingest: rendering is left out; `Array.prototype.sort` is an insertion sort, and with distinct names any sort gives its result.
- ReviewTheorems.HandoffPublishesDrafts: events whose status is "draft" are excluded; `DraftStatusOutlivesHandoff` shows why, and `ReviewHandoff.HandoffExactly` covers them.
- AgentService.LedgerObject.AcceptMessage: request parsing, schema migration, token sums and the numbers of a call's tokens are left out.
- AgentService.Service.Work: the prompt, the model and the parser are the given turns; the `running` table, which keeps one worker per Task within a process, is dropped: runs allow overlapping workers.
- ReleaseReceiver.Store.DeliverMessage: status texts and media types beyond their presence, and the Task shown for a row.
- RedactionTexts.TextsDeterminePlaces: the condition looks at pairs of neighbouring keys; confusable neighbours make a collision possible, which one document need not have.
- Redaction.Walk: it works on values, so aliasing between parts of a document is not captured; JSON loaded from text has none.
- Redaction.Verifier.Walk: the counts of files, redaction objects and decoded payloads, and the scan of a file's raw text.
- HTTP services, Agent Cards, dashboards, browser transport, scenario drivers and evidence collection: plumbing with little state of its own.
