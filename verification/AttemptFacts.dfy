/** What one attempt may rely on: its row, its record, the replies of the agent, and what other events leave alone. */
module AttemptFacts {
  import opened Prelude
  import opened Outcome
  import opened Dispatch
  import opened DispatchInvariant
  import opened DispatchSteps
  import opened DispatchRuns
  import opened DispatchTheorems
  import opened LostRace

  /** An event that is not one of attempt `a`'s own steps. */
  predicate Rival(a: nat, e: Event) {
    (OfAttempt(e) || e.Start?) ==> e.a != a
  }

  lemma RivalLeaves(a: nat, w: World, e: Event)
    requires Rival(a, e) && a in w.attempts
    ensures a in Step(AsWritten, w, e).attempts && Step(AsWritten, w, e).attempts[a] == w.attempts[a]
  {
    hide Decide, AfterSend, AfterGet, AfterUncertainSend, AfterPut, AfterStale, Handle, PutOrRaise, Finish, AttemptStep;
    if OfAttempt(e) && e.a in w.attempts { OthersStepLeaves(a, w, e); }
  }

  lemma OthersStepLeaves(a: nat, w: World, e: Event)
    requires OfAttempt(e) && e.a != a && e.a in w.attempts && a in w.attempts
    ensures a in AttemptStep(AsWritten, w, e).attempts && AttemptStep(AsWritten, w, e).attempts[a] == w.attempts[a]
  {
    hide Decide, AfterSend, AfterGet, AfterUncertainSend, AfterPut, AfterStale, PutOrRaise, Submission, Emit, Commit,
      InsertRow;
  }

  lemma {:induction false} RivalsLeave(a: nat, w: World, events: seq<Event>)
    requires a in w.attempts && forall e :: e in events ==> Rival(a, e)
    ensures var w' := Run(AsWritten, w, events); a in w'.attempts && w'.attempts[a] == w.attempts[a]
    decreases |events|
  {
    hide Step;
    if events != [] {
      RivalLeaves(a, w, events[0]);
      RivalsLeave(a, Step(AsWritten, w, events[0]), events[1..]);
    }
  }

  /** The row an attempt is about to read or write exists. */
  lemma RowThere(w: World, a: nat)
    requires Inv(w) && a in w.attempts
    requires var pc := w.attempts[a].pc; pc.Inserted? || pc.Putting? || pc.Swapping? || pc.Rereading?
    ensures w.attempts[a].input.actionId in w.journal.rows && w.attempts[a].input.actionId in w.journal.history
    ensures w.attempts[a].pc.Putting? || w.attempts[a].pc.Swapping? ==>
      w.attempts[a].pc.next.binding.actionId == w.attempts[a].input.actionId
  {
    hide Chain, AsyncStep, RowOk, PacketOk, TaskOk, AcceptedOk, OneSender, OneMessage, JournaledTaskOk;
    assert AttemptOk(w.journal, w.net, w.agents, w.attempts[a]);
  }

  /** What the loop knows of its record. */
  lemma RecordFacts(w: World, a: nat)
    requires Inv(w) && a in w.attempts
    requires var pc := w.attempts[a].pc; pc.Looping? || pc.AwaitSend? || pc.Polling? || pc.AwaitGet?
    ensures var r := w.attempts[a].pc.record;
      && Held(w.journal, w.attempts[a].input, r) && Open(r) && r.binding.effectKind.A2A?
      && r.binding.messageId.Some? && r.binding.contextId.Some?
      && (r.taskId.Some? ==> r.phase.Working? && TaskOf(w.agents, w.attempts[a].input.actionId, r.taskId.value))
    ensures w.attempts[a].pc.Polling? || w.attempts[a].pc.AwaitGet? ==> w.attempts[a].pc.record.taskId.Some?
  {
    hide AsyncStep, RowOk, PacketOk, TaskOk, AcceptedOk, OneSender, OneMessage, PutOk, SendPending;
    var t := w.attempts[a];
    var r := t.pc.record;
    assert AttemptOk(w.journal, w.net, w.agents, t);
    assert Chain(t.input.actionId, w.journal.history[t.input.actionId], w.journal.rows[t.input.actionId]);
    assert Version(t.input.actionId, w.journal.rows[t.input.actionId].binding, r.sequence,
      w.journal.history[t.input.actionId][r.sequence]);
    assert JournaledTaskOk(w.agents, t.input.actionId, w.journal.history[t.input.actionId][r.sequence]);
  }

  lemma UnusedRequest(w: World)
    requires Inv(w)
    ensures w.net.next !in w.net.inflight && w.net.next !in w.net.replies
  {
  }

  /** A Message that reaches an agent which deduplicates is answered with the action's healthy Task. */
  lemma SendAnswered(w: World, a: nat, n: nat, uuid: string)
    requires Inv(w) && a in w.attempts && w.attempts[a].pc.AwaitSend? && n in w.net.inflight && uuid !in w.used
    requires uuid != ""
    requires w.attempts[a].input.identity in w.agents.idempotent && TasksHealthy(w.agents, w.attempts[a].input.actionId)
    requires var b := w.attempts[a].pc.record.binding; b.messageId.Some? && b.contextId.Some?
    requires var t := w.attempts[a]; var b := t.pc.record.binding;
      w.net.inflight[n] == SendMessage(t.input.actionId, t.input.identity, b.messageId.value, b.contextId.value,
        t.input.parts)
    ensures var handled := Handle(w.agents, w.net.inflight[n], uuid);
      && handled.1.TaskReply? && SnapshotFits(handled.1.task, w.attempts[a].pc.record.binding)
      && TasksHealthy(handled.0, w.attempts[a].input.actionId)
  {
    hide Chain, AsyncStep, RowOk, PacketOk, OneSender, OneMessage, JournaledTaskOk, TaskOk, AcceptedOk, Held, PutOk;
    var t := w.attempts[a];
    assert AttemptOk(w.journal, w.net, w.agents, t);
    FreshTaskId(w.journal.rows, w.agents, w.used, uuid);
    if (t.input.identity, w.net.inflight[n].messageId) in w.agents.accepted { KnownMessage(w, n); }
  }

  /** A poll that reaches the agent is answered with the journaled Task as it now is. */
  lemma PollAnswered(w: World, a: nat, n: nat, uuid: string)
    requires Inv(w) && a in w.attempts && w.attempts[a].pc.AwaitGet? && n in w.net.inflight
    requires TasksHealthy(w.agents, w.attempts[a].input.actionId) && w.attempts[a].pc.record.taskId.Some?
    requires var t := w.attempts[a];
      w.net.inflight[n] == GetTask(t.input.actionId, t.input.identity, t.pc.record.taskId.value)
    ensures var handled := Handle(w.agents, w.net.inflight[n], uuid);
      var taskId := w.attempts[a].pc.record.taskId.value;
      && taskId in w.agents.tasks && handled == (w.agents, TaskReply(SnapshotOf(taskId, w.agents.tasks[taskId])))
      && SnapshotFits(handled.1.task, w.attempts[a].pc.record.binding)
  {
    hide Chain, AsyncStep, RowOk, PacketOk, OneSender, OneMessage, JournaledTaskOk, TaskOk, AcceptedOk, Held, PutOk;
    RecordFacts(w, a);
    TaskFits(w, w.attempts[a].input, w.attempts[a].pc.record, w.attempts[a].pc.record.taskId.value);
  }

  lemma JournaledRow(w: World, input: Input)
    requires Inv(w) && input.actionId in w.journal.rows && SameBinding(w.journal.rows[input.actionId].binding, input)
    ensures w.journal.rows[input.actionId].binding.messageId.Some?
    ensures w.journal.rows[input.actionId].binding.contextId.Some?
  {
    hide Chain;
    RowIsHeld(w.journal, input);
  }

  /** A healthy reply passes `validate_async_task`. */
  lemma FitsValidates(s: Snapshot, r: OutcomeRecord)
    requires SnapshotFits(s, r.binding)
    ensures ValidateAsyncTask(s, r.binding.contextId, None) == Some(s.state) && !s.state.TaskEnded?
    ensures r.taskId == Some(s.id) ==> ValidateAsyncTask(s, r.binding.contextId, r.taskId) == Some(s.state)
    ensures r.taskId == Some(s.id) && r.phase.Working? && r.binding.effectKind.A2A? && s.state.TaskCompleted? ==>
      Completes(r, s)
  {
  }

  /** A completed Task of the record's own correlation, with a valid artifact. */
  ghost predicate Completes(record: OutcomeRecord, task: Snapshot) {
    && SnapshotFits(task, record.binding) && task.state.TaskCompleted?
    && record.phase.Working? && record.taskId == Some(task.id) && record.binding.effectKind.A2A?
  }

  // A quiet world: nobody else works on the action, but other actions go on, late requests arrive, and the agent may
  // complete its Task.

  /** `busy` holds the attempts of action `id`. */
  predicate Peaceful(e: Event, busy: set<nat>, id: string) {
    || e.Deliver?
    || (e.Start? && e.input.actionId != id && e.a !in busy)
    || (OfAttempt(e) && e.a !in busy)
    || (e.Progress? && e.state.TaskCompleted? && Healthy(e.state, e.artifacts))
  }

  ghost predicate BusyWith(attempts: map<nat, Attempt>, busy: set<nat>, id: string) {
    forall b :: b in attempts && attempts[b].input.actionId == id ==> b in busy
  }

  ghost predicate HasTask(g: Agents, id: string) {
    exists t :: TaskOf(g, id, t)
  }

  /** The action's Task has completed. */
  ghost predicate HasFinished(g: Agents, id: string) {
    exists t :: TaskOf(g, id, t) && g.tasks[t].state.TaskCompleted?
  }

  /** The action's Task stays, stays healthy, and stays completed. */
  ghost predicate AgentsSteady(g: Agents, g': Agents, id: string) {
    && g'.idempotent == g.idempotent
    && (HasTask(g, id) ==> HasTask(g', id))
    && (HasFinished(g, id) ==> HasFinished(g', id))
    && (TasksHealthy(g, id) ==> TasksHealthy(g', id))
  }

  ghost predicate RowSame(j: Journal, j': Journal, id: string) {
    id in j.rows ==> id in j'.rows && j'.rows[id] == j.rows[id]
  }

  /** What peaceful events keep of the world, as far as action `id` is concerned. */
  ghost predicate Steady(w: World, w': World, id: string) {
    RowSame(w.journal, w'.journal, id) && AgentsSteady(w.agents, w'.agents, id)
  }

  lemma SteadyJoins(w: World, w1: World, w2: World, id: string)
    requires Steady(w, w1, id) && Steady(w1, w2, id)
    ensures Steady(w, w2, id)
  {
    hide AgentsSteady;
    SteadyComposes(w.agents, w1.agents, w2.agents, id);
  }

  lemma SteadyComposes(a: Agents, b: Agents, c: Agents, id: string)
    requires AgentsSteady(a, b, id) && AgentsSteady(b, c, id)
    ensures AgentsSteady(a, c, id)
  {
  }

  lemma SteadyHere(g: Agents, id: string)
    ensures AgentsSteady(g, g, id)
  {
  }

  /** No attempt touches an agent, or another attempt's arguments. */
  lemma AttemptStepKeeps(w: World, e: Event)
    requires OfAttempt(e) && e.a in w.attempts
    ensures var w' := AttemptStep(AsWritten, w, e);
      && w'.agents == w.agents && w'.attempts.Keys == w.attempts.Keys
      && forall b :: b in w.attempts ==> w'.attempts[b].input == w.attempts[b].input
  {
    hide Decide, AfterSend, AfterGet, AfterUncertainSend, AfterPut, AfterStale, PutOrRaise, Emit, Submission, Commit,
      InsertRow;
  }

  /** A step of an attempt of another action does not touch this action's row. */
  lemma OtherActionStep(w: World, e: Event, id: string)
    requires Inv(w) && OfAttempt(e) && e.a in w.attempts && w.attempts[e.a].input.actionId != id
    ensures RowSame(w.journal, AttemptStep(AsWritten, w, e).journal, id)
  {
    hide Inv, AfterPut, AfterStale, AttemptStep;
    if e.PutUpdate? {
      if w.attempts[e.a].pc.Swapping? { RowThere(w, e.a); }
      OtherUpdate(w, e.a, e.at, id);
    } else if e.Insert? {
      OtherInsert(w, e.a, e.uuid, id);
    } else if e.BindContext? {
      OtherContext(w, e.a, e.uuid, id);
    } else {
      QuietStep(AsWritten, w, e);
    }
    OneStep(w, e);
  }

  lemma OneStep(w: World, e: Event)
    requires OfAttempt(e) && e.a in w.attempts
    ensures Step(AsWritten, w, e) == AttemptStep(AsWritten, w, e)
    ensures e.PutUpdate? ==> AttemptStep(AsWritten, w, e) == PutUpdateStep(AsWritten, w, e.a, e.at)
    ensures e.Insert? ==> AttemptStep(AsWritten, w, e) == InsertStep(w, e.a, e.uuid)
    ensures e.BindContext? ==> AttemptStep(AsWritten, w, e) == BindContextStep(w, e.a, e.uuid)
  {
    hide PutUpdateStep, InsertStep, BindContextStep;
  }

  lemma OtherUpdate(w: World, a: nat, at: string, id: string)
    requires a in w.attempts && (w.attempts[a].pc.Swapping? ==> w.attempts[a].pc.next.binding.actionId != id)
    ensures RowSame(w.journal, PutUpdateStep(AsWritten, w, a, at).journal, id)
  {
    hide AfterPut, AfterStale;
  }

  lemma OtherInsert(w: World, a: nat, uuid: string, id: string)
    requires a in w.attempts && w.attempts[a].input.actionId != id
    ensures RowSame(w.journal, InsertStep(w, a, uuid).journal, id)
  {
  }

  lemma OtherContext(w: World, a: nat, uuid: string, id: string)
    requires a in w.attempts
    ensures RowSame(w.journal, BindContextStep(w, a, uuid).journal, id)
  {
  }

  /** And leaves every request but a new one as it was. */
  lemma OtherActionNet(w: World, e: Event)
    requires OfAttempt(e) && e.a in w.attempts
    ensures var net, net' := w.net, AttemptStep(AsWritten, w, e).net;
      && net'.next >= net.next && net'.replies == net.replies
      && forall n :: n < net.next ==> (n in net'.inflight <==> n in net.inflight) && (n in net.inflight ==>
            net'.inflight[n] == net.inflight[n])
  {
    hide Decide, AfterSend, AfterGet, AfterUncertainSend, AfterPut, AfterStale, PutOrRaise, Submission, Commit,
      InsertRow;
  }

  lemma ServeSteady(w: World, n: nat, uuid: string, id: string)
    requires Inv(w) && n in w.net.inflight && uuid !in w.used && uuid != ""
    ensures AgentsSteady(w.agents, Serve(w, n, uuid).agents, id)
    ensures w.net.inflight[n].SendMessage? && w.net.inflight[n].action == id ==> HasTask(Serve(w, n, uuid).agents, id)
  {
    hide JournalOk, AttemptsOk, SendersOk, TrafficOk, TaskOk, AcceptedOk;
    FreshTaskId(w.journal.rows, w.agents, w.used, uuid);
    var p := w.net.inflight[n];
    var g, g' := w.agents, Serve(w, n, uuid).agents;
    if p.SendMessage? {
      if p.identity in g.idempotent && (p.identity, p.messageId) in g.accepted {
        KnownMessage(w, n);
        assert TaskOf(g', p.action, g.accepted[(p.identity, p.messageId)]);
      } else {
        assert TaskOf(g', p.action, uuid);
      }
    }
    forall t | TaskOf(g, id, t) ensures TaskOf(g', id, t) && g'.tasks[t] == g.tasks[t] {}
  }

  lemma CompletionSteady(g: Agents, taskId: string, artifacts: seq<Artifact>, id: string)
    requires taskId in g.tasks && Healthy(TaskCompleted, artifacts)
    ensures AgentsSteady(g,
      g.(tasks := g.tasks[taskId := g.tasks[taskId].(state := TaskCompleted, artifacts := artifacts)]), id)
  {
    var g' := g.(tasks := g.tasks[taskId := g.tasks[taskId].(state := TaskCompleted, artifacts := artifacts)]);
    forall t | TaskOf(g, id, t)
      ensures TaskOf(g', id, t) && (g.tasks[t].state.TaskCompleted? ==> g'.tasks[t].state.TaskCompleted?) {}
    forall t | TaskOf(g', id, t) ensures TaskOf(g, id, t) {}
  }

  /** A peaceful event leaves the action's row alone and its Task steady. */
  lemma PeacefulStep(w: World, e: Event, busy: set<nat>, id: string)
    requires Inv(w) && BusyWith(w.attempts, busy, id) && Peaceful(e, busy, id)
    ensures var w' := Step(AsWritten, w, e);
      BusyWith(w'.attempts, busy, id) && RowSame(w.journal, w'.journal, id) && AgentsSteady(w.agents, w'.agents, id)
  {
    hide Inv, AttemptStep, AgentsSteady, Serve, Healthy;
    SteadyHere(w.agents, id);
    if OfAttempt(e) {
      if e.a in w.attempts {
        OtherActionStep(w, e, id);
        AttemptStepKeeps(w, e);
      }
    } else if e.Deliver? {
      if e.request in w.net.inflight && e.uuid !in w.used && e.uuid != "" {
        ServeSteady(w, e.request, e.uuid, id);
        ServeOnly(w, e.request, e.uuid);
      }
    } else if e.Progress? {
      if e.taskId in w.agents.tasks { CompletionSteady(w.agents, e.taskId, e.artifacts, id); }
    }
  }

  lemma ServeOnly(w: World, n: nat, uuid: string)
    requires n in w.net.inflight
    ensures Serve(w, n, uuid).journal == w.journal && Serve(w, n, uuid).attempts == w.attempts
  {
  }

  // The attempt's own request, from the moment it is made.

  ghost predicate Outstanding(net: Network, n: nat, p: Packet) {
    n < net.next && (n in net.inflight || n in net.replies) && (n in net.inflight ==> net.inflight[n] == p)
  }

  ghost predicate ReplyFits(reply: Reply, b: Binding) {
    reply.TaskReply? && SnapshotFits(reply.task, b)
  }

  function SendPacket(input: Input, r: OutcomeRecord): Packet
    requires r.binding.messageId.Some? && r.binding.contextId.Some?
  {
    SendMessage(input.actionId, input.identity, r.binding.messageId.value, r.binding.contextId.value, input.parts)
  }

  /** The attempt's request is on its way or has a fitting answer; a poll made after the Task finished sees it
      finished. */
  ghost predicate RequestGood(w: World, a: nat, finished: bool)
    requires a in w.attempts
  {
    var input := w.attempts[a].input;
    match w.attempts[a].pc
    case AwaitSend(r, _, n) =>
      && r.binding.messageId.Some? && r.binding.contextId.Some? && Outstanding(w.net, n, SendPacket(input, r))
      && (n in w.net.replies ==> ReplyFits(w.net.replies[n], r.binding) && HasTask(w.agents, input.actionId))
    case AwaitGet(r, n) =>
      && r.taskId.Some? && Outstanding(w.net, n, GetTask(input.actionId, input.identity, r.taskId.value))
      && (finished ==> HasFinished(w.agents, input.actionId))
      && (n in w.net.replies ==>
            && ReplyFits(w.net.replies[n], r.binding) && Some(w.net.replies[n].task.id) == r.taskId
            && (finished ==> w.net.replies[n].task.state.TaskCompleted?))
    case _ => true
  }

  /** The action's one Task, known to the attempt, is the one that has finished. */
  lemma FinishedIsKnown(w: World, a: nat)
    requires Inv(w) && a in w.attempts && w.attempts[a].pc.AwaitGet?
    requires HasFinished(w.agents, w.attempts[a].input.actionId)
    ensures var r := w.attempts[a].pc.record;
      r.taskId.Some? && r.taskId.value in w.agents.tasks && w.agents.tasks[r.taskId.value].state.TaskCompleted?
  {
    hide Chain, AsyncStep, TaskOk, AcceptedOk, OneSender, OneMessage, JournaledTaskOk, AttemptOk, PacketOk, RowOk;
    RecordFacts(w, a);
    var id := w.attempts[a].input.actionId;
    var t :| TaskOf(w.agents, id, t) && w.agents.tasks[t].state.TaskCompleted?;
    OneTask(w.journal.rows, w.net, w.agents, w.used, w.sent, id, t, w.attempts[a].pc.record.taskId.value);
  }

  /** Delivering the attempt's own request answers it well. */
  lemma OwnRequestServed(w: World, a: nat, n: nat, uuid: string, finished: bool)
    requires Inv(w) && a in w.attempts && RequestGood(w, a, finished)
    requires w.attempts[a].input.identity in w.agents.idempotent && TasksHealthy(w.agents, w.attempts[a].input.actionId)
    requires (w.attempts[a].pc.AwaitSend? || w.attempts[a].pc.AwaitGet?) && w.attempts[a].pc.request == n
    requires n in w.net.inflight && uuid !in w.used && uuid != ""
    ensures RequestGood(Serve(w, n, uuid), a, finished) && n in Serve(w, n, uuid).net.replies
    ensures w.attempts[a].pc.AwaitSend? ==> HasTask(Serve(w, n, uuid).agents, w.attempts[a].input.actionId)
  {
    hide Inv, Handle, HasTask, HasFinished, SnapshotFits, TasksHealthy;
    ServeSteady(w, n, uuid, w.attempts[a].input.actionId);
    if w.attempts[a].pc.AwaitSend? {
      SendAnswered(w, a, n, uuid);
    } else {
      PollAnswered(w, a, n, uuid);
      if finished { FinishedIsKnown(w, a); }
    }
  }

  lemma GoodStays(w: World, w': World, a: nat, finished: bool)
    requires a in w.attempts && RequestGood(w, a, finished) && a in w'.attempts && w'.attempts[a] == w.attempts[a]
    requires AgentsSteady(w.agents, w'.agents, w.attempts[a].input.actionId)
    requires w'.net.next >= w.net.next
    requires var pc := w.attempts[a].pc; pc.AwaitSend? || pc.AwaitGet? ==>
      && (pc.request in w'.net.replies <==> pc.request in w.net.replies)
      && (pc.request in w'.net.inflight <==> pc.request in w.net.inflight)
      && (pc.request in w.net.replies ==> w'.net.replies[pc.request] == w.net.replies[pc.request])
      && (pc.request in w.net.inflight ==> w'.net.inflight[pc.request] == w.net.inflight[pc.request])
    ensures RequestGood(w', a, finished)
  {
    hide SnapshotFits, TasksHealthy, TaskOf;
  }

  /** A peaceful event does the attempt's request no harm: it may only bring it to the agent. */
  lemma PeacefulRequest(w: World, e: Event, a: nat, busy: set<nat>, finished: bool)
    requires Inv(w) && a in w.attempts && a in busy && RequestGood(w, a, finished)
    requires w.attempts[a].input.identity in w.agents.idempotent && TasksHealthy(w.agents, w.attempts[a].input.actionId)
    requires BusyWith(w.attempts, busy, w.attempts[a].input.actionId) && Peaceful(e, busy, w.attempts[a].input.actionId)
    ensures a in Step(AsWritten, w, e).attempts && Step(AsWritten, w, e).attempts[a] == w.attempts[a]
    ensures RequestGood(Step(AsWritten, w, e), a, finished)
  {
    hide Inv, AttemptStep, RequestGood, Serve, TasksHealthy, AgentsSteady;
    PeacefulStep(w, e, busy, w.attempts[a].input.actionId);
    RivalLeaves(a, w, e);
    var w' := Step(AsWritten, w, e);
    if OfAttempt(e) {
      if e.a in w.attempts {
        OtherActionNet(w, e);
        RequestMade(w, a, finished);
      }
      GoodStays(w, w', a, finished);
    } else if e.Deliver? && e.request in w.net.inflight && e.uuid !in w.used && e.uuid != "" {
      if (w.attempts[a].pc.AwaitSend? || w.attempts[a].pc.AwaitGet?) && w.attempts[a].pc.request == e.request {
        OwnRequestServed(w, a, e.request, e.uuid, finished);
      } else {
        ServeElsewhere(w, e.request, e.uuid);
        GoodStays(w, w', a, finished);
      }
    } else {
      GoodStays(w, w', a, finished);
    }
  }

  lemma RequestMade(w: World, a: nat, finished: bool)
    requires a in w.attempts && RequestGood(w, a, finished)
    ensures w.attempts[a].pc.AwaitSend? || w.attempts[a].pc.AwaitGet? ==> w.attempts[a].pc.request < w.net.next
  {
  }

  lemma ServeElsewhere(w: World, n: nat, uuid: string)
    requires n in w.net.inflight
    ensures var net, net' := w.net, Serve(w, n, uuid).net;
      && net'.next == net.next
      && (forall m :: m != n ==> (m in net'.inflight <==> m in net.inflight) && (m in net'.replies <==>
            m in net.replies))
      && (forall m :: m != n && m in net.inflight ==> net'.inflight[m] == net.inflight[m])
      && (forall m :: m != n && m in net.replies ==> net'.replies[m] == net.replies[m])
  {
  }

  lemma {:induction false} PeacefulRun(w: World, events: seq<Event>, a: nat, busy: set<nat>, finished: bool)
    requires Inv(w) && a in w.attempts && a in busy && RequestGood(w, a, finished)
    requires w.attempts[a].input.identity in w.agents.idempotent && TasksHealthy(w.agents, w.attempts[a].input.actionId)
    requires BusyWith(w.attempts, busy, w.attempts[a].input.actionId)
    requires forall e :: e in events ==> Peaceful(e, busy, w.attempts[a].input.actionId)
    ensures var w' := Run(AsWritten, w, events); var id := w.attempts[a].input.actionId;
      && a in w'.attempts && w'.attempts[a] == w.attempts[a] && RequestGood(w', a, finished)
      && BusyWith(w'.attempts, busy, id) && RowSame(w.journal, w'.journal, id) && AgentsSteady(w.agents, w'.agents, id)
    decreases |events|
  {
    hide Inv, Step, RequestGood, TasksHealthy, HasTask, HasFinished, BusyWith, Peaceful;
    var id := w.attempts[a].input.actionId;
    if events == [] {
      SteadyHere(w.agents, id);
    } else {
      var w1 := Step(AsWritten, w, events[0]);
      assert events[0] in events;
      StepKeepsInv(AsWritten, w, events[0]);
      PeacefulStep(w, events[0], busy, id);
      PeacefulRequest(w, events[0], a, busy, finished);
      PeacefulRun(w1, events[1..], a, busy, finished);
      SteadyComposes(w.agents, w1.agents, Run(AsWritten, w, events).agents, id);
    }
  }

  /** A step other than a start brings no attempt and keeps every attempt's arguments. */
  lemma StepKeepsInputs(w: World, e: Event, busy: set<nat>, id: string)
    requires !e.Start? && BusyWith(w.attempts, busy, id)
    ensures BusyWith(Step(AsWritten, w, e).attempts, busy, id)
  {
    hide AttemptStep, Handle;
    if OfAttempt(e) && e.a in w.attempts { AttemptStepKeeps(w, e); }
  }

  lemma HandleKeeps(g: Agents, p: Packet, uuid: string)
    ensures Handle(g, p, uuid).0.idempotent == g.idempotent
  {
  }

  lemma {:induction false} RunKeepsAgents(w: World, events: seq<Event>)
    ensures Run(AsWritten, w, events).agents.idempotent == w.agents.idempotent
    decreases |events|
  {
    hide Step;
    if events != [] {
      StepKeepsIdempotent(w, events[0]);
      RunKeepsAgents(Step(AsWritten, w, events[0]), events[1..]);
    }
  }

  lemma StepKeepsIdempotent(w: World, e: Event)
    ensures Step(AsWritten, w, e).agents.idempotent == w.agents.idempotent
  {
    hide AttemptStep, Handle;
    if OfAttempt(e) && e.a in w.attempts { AttemptStepKeeps(w, e); }
    if e.Deliver? && e.request in w.net.inflight { HandleKeeps(w.agents, w.net.inflight[e.request], e.uuid); }
  }

  /** A request on its way has no answer yet. */
  lemma NotYetAnswered(w: World, n: nat)
    requires Inv(w) && n in w.net.inflight
    ensures n !in w.net.replies
  {
  }

  /** The Task a row names is the action's. */
  lemma RowNamesTask(w: World, id: string)
    requires Inv(w) && id in w.journal.rows && w.journal.rows[id].taskId.Some?
    ensures TaskOf(w.agents, id, w.journal.rows[id].taskId.value)
  {
    hide AsyncStep, Version, RowsOk;
    var h := w.journal.history[id];
    assert Chain(id, h, w.journal.rows[id]) && JournaledTaskOk(w.agents, id, h[|h| - 1]);
  }

  /** Whether the action has a Task, and whether it has completed. */
  ghost function TaskSeen(g: Agents, id: string): Option<bool> {
    if HasTask(g, id) then Some(HasFinished(g, id)) else None
  }

  lemma SteadyServe(w0: World, w: World, n: nat, uuid: string, id: string)
    requires Inv(w) && Steady(w0, w, id) && n in w.net.inflight && uuid !in w.used && uuid != ""
    ensures Steady(w0, Serve(w, n, uuid), id)
    ensures TasksHealthy(w.agents, id) ==> TasksHealthy(Serve(w, n, uuid).agents, id)
    ensures Serve(w, n, uuid).agents.idempotent == w.agents.idempotent
  {
    hide Inv, Serve, TasksHealthy, HasTask, HasFinished;
    ServeSteady(w, n, uuid, id);
    ServeOnly(w, n, uuid);
    SteadyComposes(w0.agents, w.agents, Serve(w, n, uuid).agents, id);
  }

  lemma SteadyWorld(w: World, id: string)
    ensures Steady(w, w, id)
  {
  }

  /** An attempt with no request on its way. */
  lemma Idle(w: World, a: nat)
    requires a in w.attempts && !w.attempts[a].pc.AwaitSend? && !w.attempts[a].pc.AwaitGet?
    ensures RequestGood(w, a, false)
  {
  }
}
