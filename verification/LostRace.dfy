/** What a lost race over a Task id does when nothing else goes wrong.

    adapter.py:175 puts inside a `try` whose `except Exception` (adapter.py:191) also catches StaleOutcome, so
    the loser journals an incident; src/release_delivery.py:280-293 names its exceptions and lets StaleOutcome
    through. In a run without faults the first is the only way a participating action can end in an incident,
    and the second leaves none. */
module LostRace {
  import opened Prelude
  import opened Outcome
  import opened Dispatch
  import opened DispatchInvariant
  import opened DispatchSteps
  import opened DispatchRuns
  import opened DispatchTheorems

  predicate Healthy(state: TaskState, artifacts: seq<Artifact>) {
    || state.TaskSubmitted? || state.TaskWorking?
    || (state.TaskCompleted? && |artifacts| == 1 && |artifacts[0]| == 1 && artifacts[0][0].TextPart?)
  }

  /** Every pin verifies, every request that arrives is served, every Task completes with a valid artifact.
      Requests and replies may still be lost, and attempts may still overlap, time out and crash. */
  predicate FaultFree(e: Event) {
    && !e.PinFailed? && !e.CapabilityMissing? && !e.Refuse? && !e.Garble?
    && (e.Progress? ==> Healthy(e.state, e.artifacts))
  }

  /** The loser's incident: built on a Working record that names the Task. */
  predicate Clean(v: Variant, r: OutcomeRecord) {
    r.phase.Incident? ==>
      && v.AsWritten? && r.reason == Some("async-send-binding-inconsistent")
      && r.taskId.Some? && r.expectedPhase == Some(Working)
  }

  ghost predicate SnapshotFits(s: Snapshot, b: Binding) {
    Healthy(s.state, s.artifacts) && Some(s.contextId) == b.contextId && s.id != ""
  }

  ghost predicate ReplyHealthy(g: Agents, reply: Reply) {
    && reply.TaskReply? && reply.task.id != "" && reply.task.id in g.tasks
    && reply.task.contextId == g.tasks[reply.task.id].contextId
    && Healthy(reply.task.state, reply.task.artifacts)
  }

  /** What request `n` of a poll may be or have become. */
  ghost predicate GetPending(net: Network, g: Agents, input: Input, taskId: string, n: nat) {
    && n < net.next
    && (n in net.inflight ==> net.inflight[n] == GetTask(input.actionId, input.identity, taskId))
    && (n in net.replies ==> ReplyHealthy(g, net.replies[n]) && net.replies[n].task.id == taskId)
  }

  ghost predicate AttemptClean(v: Variant, net: Network, g: Agents, t: Attempt) {
    t.input.mode.Participating? ==>
      match t.pc
      case AwaitSend(_, _, n) => n < net.next && (n in net.replies ==> ReplyHealthy(g, net.replies[n]))
      case AwaitGet(r, n) => r.taskId.Some? && GetPending(net, g, t.input, r.taskId.value, n)
      case Putting(next, after) => PutClean(v, next, after)
      case Swapping(next, _, after) => PutClean(v, next, after)
      case _ => true
  }

  ghost predicate PutClean(v: Variant, next: OutcomeRecord, after: After) {
    Clean(v, next) && (after.TaskKnown? ==> SnapshotFits(after.task, next.binding))
  }

  ghost predicate AttemptsClean(v: Variant, net: Network, g: Agents, attempts: map<nat, Attempt>, id: string) {
    forall a :: a in attempts && attempts[a].input.actionId == id ==> AttemptClean(v, net, g, attempts[a])
  }

  ghost predicate TasksHealthy(g: Agents, id: string) {
    forall t :: TaskOf(g, id, t) ==> t != "" && Healthy(g.tasks[t].state, g.tasks[t].artifacts)
  }

  ghost predicate PollsKnown(net: Network, g: Agents, id: string) {
    forall n :: n in net.inflight && net.inflight[n].GetTask? && net.inflight[n].action == id ==>
      TaskOf(g, id, net.inflight[n].taskId) && g.tasks[net.inflight[n].taskId].identity == net.inflight[n].identity
  }

  /** Nothing has gone wrong with action `id` so far. */
  ghost predicate NoFault(v: Variant, w: World, id: string) {
    && TasksHealthy(w.agents, id) && PollsKnown(w.net, w.agents, id)
    && AttemptsClean(v, w.net, w.agents, w.attempts, id)
    && (id in w.journal.rows && w.journal.rows[id].binding.receiver.Participating? ==> Clean(v, w.journal.rows[id]))
  }

  /** The Task an attempt knows of sits at its own agent, in its own context. */
  lemma TaskFits(w: World, input: Input, r: OutcomeRecord, taskId: string)
    requires Inv(w) && Held(w.journal, input, r) && TaskOf(w.agents, input.actionId, taskId)
    ensures Some(w.agents.tasks[taskId].contextId) == r.binding.contextId
    ensures w.agents.tasks[taskId].identity == input.identity
  {
    hide AsyncStep, RowOk, PacketOk, AcceptedOk, OneSender, OneMessage, JournaledTaskOk, AttemptOk;
    assert TaskOk(w.journal.rows, w.agents, w.used, taskId, w.agents.tasks[taskId]);
    var id := input.actionId;
    assert Chain(id, w.journal.history[id], w.journal.rows[id]);
    assert Version(id, w.journal.rows[id].binding, r.sequence, w.journal.history[id][r.sequence]);
  }

  /** A completed Task of the journaled correlation, with one text artifact, confirms. */
  lemma FinishConfirms(v: Variant, net: Network, g: Agents, input: Input, r: OutcomeRecord, task: Snapshot, at: string)
    requires SnapshotFits(task, r.binding) && task.state.TaskCompleted? && r.phase.Working? && r.taskId == Some(task.id)
    requires r.binding.effectKind.A2A?
    ensures Finish(r, task, at).Putting? && Finish(r, task, at).next.phase.Confirmed?
    ensures Finish(r, task, at).after.Finishing?
    ensures AttemptClean(v, net, g, Attempt(input, Finish(r, task, at)))
  {
  }

  lemma CleanMove(v: Variant, w: World, id: string, a: nat, pc: Pc)
    requires NoFault(v, w, id) && a in w.attempts
    requires w.attempts[a].input.actionId == id ==> AttemptClean(v, w.net, w.agents, w.attempts[a].(pc := pc))
    ensures NoFault(v, SetPc(w, a, pc), id)
  {
  }

  lemma CleanBegin(v: Variant, w: World, id: string, a: nat, uuid: string)
    requires NoFault(v, w, id) && a in w.attempts
    ensures NoFault(v, BindContextStep(w, a, uuid), id) && NoFault(v, InsertStep(w, a, uuid), id)
  {
    hide NoFault, Submission;
    var t := w.attempts[a];
    if t.pc == Fresh && uuid !in w.used && uuid != "" {
      var j := BindContextRow(w.journal, (t.input.runId, t.input.identity), uuid);
      SameRowsNoFault(v, w, id, j, w.used + {uuid});
      CleanMove(v, w, id, a, Done(Raised));
      CleanMove(v, w.(journal := j, used := w.used + {uuid}), id, a,
        Contexted(j.contexts[(t.input.runId, t.input.identity)]));
    }
    if t.pc.Contexted? && uuid !in w.used && uuid != "" {
      CleanMove(v, w, id, a, Done(Raised));
      var row := Submission(t.input, uuid, t.pc.contextId);
      if row.Success? {
        NewRowIsOpen(t.input, uuid, t.pc.contextId);
        NewRowNoFault(v, w, id, row.value, w.used + {uuid});
        CleanMove(v, w.(journal := InsertRow(w.journal, row.value), used := w.used + {uuid}), id, a,
                  Inserted(t.input.actionId !in w.journal.rows));
      }
    }
  }

  lemma SameRowsNoFault(v: Variant, w: World, id: string, j: Journal, used: set<string>)
    requires NoFault(v, w, id) && j.rows == w.journal.rows
    ensures NoFault(v, w.(journal := j, used := used), id)
  {
  }

  lemma NewRowIsOpen(input: Input, uuid: string, contextId: string)
    ensures var row := Submission(input, uuid, contextId); row.Success? ==> row.value.phase.Submitted?
  {
  }

  lemma NewRowNoFault(v: Variant, w: World, id: string, row: OutcomeRecord, used: set<string>)
    requires NoFault(v, w, id) && row.phase.Submitted?
    ensures NoFault(v, w.(journal := InsertRow(w.journal, row), used := used), id)
  {
  }

  lemma CleanReadBack(v: Variant, w: World, id: string, a: nat)
    requires Inv(w) && NoFault(v, w, id) && a in w.attempts
    ensures NoFault(v, ReadBackStep(w, a), id)
  {
    hide Chain, AsyncStep, RowOk, PacketOk, TaskOk, AcceptedOk, OneSender, OneMessage, JournaledTaskOk;
    var t := w.attempts[a];
    var rows := w.journal.rows;
    if t.pc.Inserted? && t.input.actionId in rows && SameBinding(rows[t.input.actionId].binding, t.input) {
      RowIsHeld(w.journal, t.input);
    }
  }

  lemma CleanVerified(v: Variant, w: World, id: string, a: nat)
    requires Inv(w) && NoFault(v, w, id) && a in w.attempts
    ensures NoFault(v, VerifiedStep(w, a), id)
  {
    hide Chain, AsyncStep, RowOk, PacketOk, TaskOk, AcceptedOk, OneSender, OneMessage, JournaledTaskOk, Held;
  }

  lemma CleanEmitGet(v: Variant, w: World, id: string, a: nat)
    requires Inv(w) && NoFault(v, w, id) && a in w.attempts
    ensures NoFault(v, EmitGetStep(w, a), id)
  {
    hide Chain, AsyncStep, RowsOk, PacketOk, AgentsOk, SendersOk, TrafficOk, JournaledTaskOk, PutOk, SendPending;
    var t := w.attempts[a];
    assert AttemptOk(w.journal, w.net, w.agents, t);
    if t.pc.Polling? && t.pc.record.taskId.Some? {
      HeldIsReady(w.journal, w.agents, t.input, t.pc.record);
      TaskFits(w, t.input, t.pc.record, t.pc.record.taskId.value);
    }
  }

  lemma CleanTimeout(v: Variant, w: World, id: string, a: nat)
    requires NoFault(v, w, id) && a in w.attempts
    ensures NoFault(v, TimeoutStep(w, a), id)
  {
    var t := w.attempts[a];
    assert AttemptClean(v, w.net, w.agents,
      t.(pc := if t.pc.AwaitSend? then AfterUncertainSend(t.input, t.pc.record) else Crashed));
  }

  lemma CleanSendReply(v: Variant, w: World, a: nat, t: Attempt, reply: Reply)
    requires Inv(w) && AttemptClean(v, w.net, w.agents, t) && a in w.attempts && w.attempts[a] == t && t.pc.AwaitSend?
    requires t.pc.request in w.net.replies && reply == w.net.replies[t.pc.request]
    ensures AttemptClean(v, w.net, w.agents, t.(pc := AfterSend(t.pc.record, reply)))
  {
    hide Chain, AsyncStep, RowOk, PacketOk, TaskOk, AcceptedOk, OneSender, OneMessage, JournaledTaskOk;
    if t.input.mode.Participating? {
      assert AttemptOk(w.journal, w.net, w.agents, t) && ReplyHealthy(w.agents, reply);
      TaskFits(w, t.input, t.pc.record, reply.task.id);
    }
  }

  lemma CleanGetReply(v: Variant, w: World, a: nat, t: Attempt, reply: Reply, at: string)
    requires Inv(w) && AttemptClean(v, w.net, w.agents, t) && a in w.attempts && w.attempts[a] == t && t.pc.AwaitGet?
    requires t.pc.request in w.net.replies && reply == w.net.replies[t.pc.request]
    ensures AttemptClean(v, w.net, w.agents, t.(pc := AfterGet(t.pc.record, reply, at)))
  {
    hide Chain, AsyncStep, RowOk, PacketOk, TaskOk, AcceptedOk, OneSender, OneMessage, JournaledTaskOk, Finish;
    if t.input.mode.Participating? {
      assert AttemptOk(w.journal, w.net, w.agents, t) && ReplyHealthy(w.agents, reply);
      HeldIsReady(w.journal, w.agents, t.input, t.pc.record);
      TaskFits(w, t.input, t.pc.record, reply.task.id);
      if reply.task.state.TaskCompleted? { FinishConfirms(v, w.net, w.agents, t.input, t.pc.record, reply.task, at); }
    }
  }

  lemma CleanReceive(v: Variant, w: World, id: string, a: nat, at: string)
    requires Inv(w) && NoFault(v, w, id) && a in w.attempts
    ensures NoFault(v, ReceiveStep(w, a, at), id)
  {
    hide Inv, AfterSend, AfterGet, AttemptClean;
    var t := w.attempts[a];
    if t.pc.AwaitSend? && t.pc.request in w.net.replies {
      if t.input.actionId == id { CleanSendReply(v, w, a, t, w.net.replies[t.pc.request]); }
      CleanMove(v, w, id, a, AfterSend(t.pc.record, w.net.replies[t.pc.request]));
    } else if t.pc.AwaitGet? && t.pc.request in w.net.replies {
      if t.input.actionId == id { CleanGetReply(v, w, a, t, w.net.replies[t.pc.request], at); }
      CleanMove(v, w, id, a, AfterGet(t.pc.record, w.net.replies[t.pc.request], at));
    }
  }

  lemma CleanAfterStale(v: Variant, net: Network, g: Agents, t: Attempt, next: OutcomeRecord, after: After)
    requires t.input.mode.Participating? ==> PutClean(v, next, after)
    requires after.TaskKnown? ==> next.phase.Working? && next.taskId.Some?
    ensures AttemptClean(v, net, g, t.(pc := AfterStale(v, next, after)))
  {
  }

  lemma CleanSelect(v: Variant, w: World, id: string, a: nat)
    requires Inv(w) && NoFault(v, w, id) && a in w.attempts
    ensures NoFault(v, PutSelectStep(v, w, a), id)
  {
    hide ChainsOk, JournaledTasksOk, RowsOk, NetworkOk, AgentsOk, SendersOk, TrafficOk, Extends, Refused, AfterStale;
    var t := w.attempts[a];
    assert AttemptOk(w.journal, w.net, w.agents, t) && (t.input.actionId == id ==> AttemptClean(v, w.net, w.agents, t));
    if t.pc.Putting? && t.input.actionId == id { CleanAfterStale(v, w.net, w.agents, t, t.pc.next, t.pc.after); }
  }

  lemma CleanAfterPut(v: Variant, w: World, t: Attempt, at: string)
    requires t.pc.Swapping? && AttemptOk(w.journal, w.net, w.agents, t) && AttemptClean(v, w.net, w.agents, t)
    ensures AttemptClean(v, w.net, w.agents, t.(pc := AfterPut(t.pc.next, t.pc.after, at)))
    ensures t.input.mode.Participating? ==> Clean(v, t.pc.next)
    ensures t.pc.next.binding.receiver == t.input.mode
  {
    hide AsyncStep, Finish, Extends, Refused;
    if t.input.mode.Participating? && t.pc.after.TaskKnown? && t.pc.after.task.state.TaskCompleted? {
      FinishConfirms(v, w.net, w.agents, t.input, t.pc.next, t.pc.after.task, at);
    }
  }

  lemma CleanUpdate(v: Variant, w: World, id: string, a: nat, at: string)
    requires Inv(w) && NoFault(v, w, id) && a in w.attempts
    ensures NoFault(v, PutUpdateStep(v, w, a, at), id)
  {
    hide ChainsOk, JournaledTasksOk, RowsOk, NetworkOk, AgentsOk, SendersOk, TrafficOk, Extends, Refused, AfterPut,
      AfterStale;
    var t := w.attempts[a];
    assert AttemptOk(w.journal, w.net, w.agents, t) && (t.input.actionId == id ==> AttemptClean(v, w.net, w.agents, t));
    if t.pc.Swapping? && t.input.actionId == id {
      CleanAfterPut(v, w, t, at);
      CleanAfterStale(v, w.net, w.agents, t, t.pc.next, t.pc.after);
    }
  }

  lemma CleanReread(v: Variant, w: World, id: string, a: nat)
    requires NoFault(v, w, id) && a in w.attempts
    ensures NoFault(v, RereadStep(w, a), id)
  {
  }

  lemma AttemptStepKeepsNoFault(v: Variant, w: World, id: string, e: Event)
    requires Inv(w) && NoFault(v, w, id) && FaultFree(e) && OfAttempt(e) && e.a in w.attempts
    ensures NoFault(v, AttemptStep(v, w, e), id)
  {
    hide Inv, NoFault, BindContextStep, InsertStep, ReadBackStep, VerifiedStep, EmitGetStep, TimeoutStep, ReceiveStep,
      PutSelectStep, PutUpdateStep;
    if e.BindContext? || e.Insert? { CleanBegin(v, w, id, e.a, e.uuid); }
    else if e.ReadBack? { CleanReadBack(v, w, id, e.a); }
    else if e.Verified? { CleanVerified(v, w, id, e.a); }
    else if e.EmitGet? { CleanEmitGet(v, w, id, e.a); }
    else if e.Timeout? { CleanTimeout(v, w, id, e.a); }
    else if e.Receive? { CleanReceive(v, w, id, e.a, e.at); }
    else if e.PutSelect? { CleanSelect(v, w, id, e.a); }
    else if e.PutUpdate? { CleanUpdate(v, w, id, e.a, e.at); }
    else if e.Deadline? { CleanMove(v, w, id, e.a, Done(Pending)); }
    else if e.Crash? { CleanMove(v, w, id, e.a, Crashed); }
    else { CleanReread(v, w, id, e.a); }
  }

  lemma FreshTaskId(rows: map<string, OutcomeRecord>, g: Agents, used: set<string>, uuid: string)
    requires AgentsOk(rows, g, used) && uuid !in used
    ensures uuid !in g.tasks
  {
    forall t | t in g.tasks ensures t in used { assert TaskOk(rows, g, used, t, g.tasks[t]); }
  }

  /** Whether an answer to request `n` is healthy matters to action `id` only if the request is its own. */
  ghost predicate AnswersWell(w: World, id: string, n: nat, reply: Reply, g': Agents) {
    n in w.net.inflight && (w.net.inflight[n].action == id ==>
      && ReplyHealthy(g', reply)
      && (w.net.inflight[n].GetTask? ==> reply.task.id == w.net.inflight[n].taskId))
  }

  lemma CleanAnswer(v: Variant, w: World, id: string, n: nat, reply: Reply, g': Agents)
    requires Inv(w) && NoFault(v, w, id) && AnswersWell(w, id, n, reply, g') && TasksHealthy(g', id)
    requires forall t :: t in w.agents.tasks ==> t in g'.tasks && g'.tasks[t] == w.agents.tasks[t]
    ensures PollsKnown(Answered(w.net, n, reply), g', id)
    ensures AttemptsClean(v, Answered(w.net, n, reply), g', w.attempts, id)
  {
    hide JournalOk, NetworkOk, AgentsOk, SendersOk, TrafficOk, Held, PutOk, Extends;
    var net' := Answered(w.net, n, reply);
    forall a | a in w.attempts && w.attempts[a].input.actionId == id ensures AttemptClean(v, net', g', w.attempts[a]) {
      assert AttemptClean(v, w.net, w.agents, w.attempts[a]) && AttemptOk(w.journal, w.net, w.agents, w.attempts[a]);
    }
  }

  lemma CleanServe(v: Variant, w: World, id: string, n: nat, uuid: string)
    requires Inv(w) && NoFault(v, w, id) && n in w.net.inflight && uuid !in w.used && uuid != ""
    ensures NoFault(v, Serve(w, n, uuid), id)
  {
    hide Chain, AsyncStep, RowOk, PacketOk, OneSender, OneMessage, JournaledTaskOk, AttemptOk, TaskOk, AttemptClean,
      AcceptedOk;
    var p := w.net.inflight[n];
    var w' := Serve(w, n, uuid);
    if p.SendMessage? && p.identity in w.agents.idempotent && (p.identity, p.messageId) in w.agents.accepted {
      KnownMessage(w, n);
    }
    FreshTaskId(w.journal.rows, w.agents, w.used, uuid);
    assert AnswersWell(w, id, n, w'.net.replies[n], w'.agents);
    CleanAnswer(v, w, id, n, w'.net.replies[n], w'.agents);
  }

  lemma CleanProgress(v: Variant, w: World, id: string, e: Event)
    requires NoFault(v, w, id) && e.Progress? && FaultFree(e)
    ensures NoFault(v, Step(v, w, e), id)
  {
    if e.taskId in w.agents.tasks {
      var w' := Step(v, w, e);
      forall a | a in w.attempts && w.attempts[a].input.actionId == id
        ensures AttemptClean(v, w'.net, w'.agents, w.attempts[a])
      {
        assert AttemptClean(v, w.net, w.agents, w.attempts[a]);
      }
    }
  }

  lemma CleanLose(v: Variant, w: World, id: string, n: nat)
    requires NoFault(v, w, id)
    ensures NoFault(v, w.(net := w.net.(inflight := w.net.inflight - {n})), id)
  {
    forall a | a in w.attempts && w.attempts[a].input.actionId == id
      ensures AttemptClean(v, w.net.(inflight := w.net.inflight - {n}), w.agents, w.attempts[a])
    {
      assert AttemptClean(v, w.net, w.agents, w.attempts[a]);
    }
  }

  lemma StepKeepsNoFault(v: Variant, w: World, id: string, e: Event)
    requires Inv(w) && NoFault(v, w, id) && FaultFree(e)
    ensures NoFault(v, Step(v, w, e), id)
  {
    hide Inv, AttemptStep, Serve;
    if OfAttempt(e) {
      if e.a in w.attempts { AttemptStepKeepsNoFault(v, w, id, e); }
    } else if e.Deliver? {
      if e.request in w.net.inflight && e.uuid !in w.used && e.uuid != "" { CleanServe(v, w, id, e.request, e.uuid); }
    } else if e.Progress? {
      CleanProgress(v, w, id, e);
    } else if e.Lose? {
      CleanLose(v, w, id, e.request);
    }
  }

  lemma {:induction false} RunKeepsNoFault(v: Variant, w: World, id: string, events: seq<Event>)
    requires Inv(w) && NoFault(v, w, id) && forall e :: e in events ==> FaultFree(e)
    ensures NoFault(v, Run(v, w, events), id)
    decreases |events|
  {
    hide Inv, NoFault, Step;
    if events != [] {
      assert events[0] in events;
      StepKeepsInv(v, w, events[0]);
      StepKeepsNoFault(v, w, id, events[0]);
      RunKeepsNoFault(v, Step(v, w, events[0]), id, events[1..]);
    }
  }

  /** When StaleOutcome passes through, a lost race is harmless: in a run without faults no participating
      action ever ends in an incident. */
  lemma LostRaceIsHarmless(idempotent: set<string>, events: seq<Event>, id: string)
    requires forall e :: e in events ==> FaultFree(e)
    requires id in Run(PassesThrough, Initial(idempotent), events).journal.rows
    ensures var row := Run(PassesThrough, Initial(idempotent), events).journal.rows[id];
      row.binding.receiver.Participating? ==> !row.phase.Incident?
  {
    InitialInv(idempotent);
    RunKeepsNoFault(PassesThrough, Initial(idempotent), id, events);
  }

  /** As written, a run without faults can end a participating action in an incident in one way only: the
      loser of the race over the Task id replaces the winner's Working row, naming the same Task. */
  lemma OnlyTheLostRaceMakesIncidents(idempotent: set<string>, events: seq<Event>, id: string)
    requires forall e :: e in events ==> FaultFree(e)
    requires id in Run(AsWritten, Initial(idempotent), events).journal.rows
    requires Run(AsWritten, Initial(idempotent), events).journal.rows[id].phase.Incident?
    requires Run(AsWritten, Initial(idempotent), events).journal.rows[id].binding.receiver.Participating?
    ensures var j := Run(AsWritten, Initial(idempotent), events).journal;
      && j.rows[id].reason == Some("async-send-binding-inconsistent")
      && id in j.history && |j.history[id]| >= 2
      && var winner := j.history[id][|j.history[id]| - 2];
         winner.phase.Working? && winner.taskId.Some? && winner.taskId == j.rows[id].taskId
  {
    hide RowOk, PacketOk, TaskOk, AcceptedOk, OneSender, OneMessage, JournaledTaskOk, AttemptOk, AttemptClean;
    InitialInv(idempotent);
    RunKeepsNoFault(AsWritten, Initial(idempotent), id, events);
    ReachableInv(AsWritten, idempotent, events);
    var j := Run(AsWritten, Initial(idempotent), events).journal;
    IncidentFollowsWorking(id, j.history[id], j.rows[id]);
  }

  lemma IncidentFollowsWorking(id: string, h: seq<OutcomeRecord>, row: OutcomeRecord)
    requires Chain(id, h, row) && row.phase.Incident? && row.expectedPhase == Some(Working)
    ensures |h| >= 2 && h[|h| - 2].phase.Working? && h[|h| - 2].taskId.Some? && h[|h| - 2].taskId == row.taskId
  {
    hide AsyncStep;
    assert Version(id, row.binding, |h| - 2, h[|h| - 2]);
    AsyncStepFacts(h[|h| - 2], h[|h| - 1]);
  }
}
