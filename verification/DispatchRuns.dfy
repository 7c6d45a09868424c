/** Every event keeps the dispatch invariant. */
module DispatchRuns {
  import opened Prelude
  import opened Outcome
  import opened Dispatch
  import opened DispatchInvariant
  import opened DispatchSteps

  lemma BindContextKeeps(w: World, a: nat, uuid: string)
    requires Inv(w) && a in w.attempts
    ensures Inv(BindContextStep(w, a, uuid))
  {
    hide Chain, AsyncStep, RowOk, PacketOk, TaskOk, AcceptedOk, OneSender, OneMessage, JournaledTaskOk;
    var t := w.attempts[a];
    assert AttemptOk(w.journal, w.net, w.agents, t);
    if t.pc == Fresh && uuid !in w.used && uuid != "" {
      if t.input.runId == "" || t.input.identity == "" {
        MoveKeepsInv(w, a, Done(Raised));
      } else {
        var j' := BindContextRow(w.journal, (t.input.runId, t.input.identity), uuid);
        ContextsDoNotMatter(w, j'.contexts);
        var w1 := w.(journal := w.journal.(contexts := j'.contexts));
        assert w1.journal == j';
        UsedGrows(w1, uuid);
        MoveKeepsInv(w1.(used := w1.used + {uuid}), a, Contexted(j'.contexts[(t.input.runId, t.input.identity)]));
      }
    }
  }

  lemma InsertKeeps(w: World, a: nat, uuid: string)
    requires Inv(w) && a in w.attempts
    ensures Inv(InsertStep(w, a, uuid))
  {
    hide Chain, AsyncStep, RowOk, PacketOk, TaskOk, AcceptedOk, OneSender, OneMessage, JournaledTaskOk;
    var t := w.attempts[a];
    assert AttemptOk(w.journal, w.net, w.agents, t);
    if t.pc.Contexted? && uuid !in w.used && uuid != "" {
      match Submission(t.input, uuid, t.pc.contextId) {
        case Failure(_) => MoveKeepsInv(w, a, Done(Raised));
        case Success(row) =>
          SubmissionFacts(w.used, t.input, row, uuid, t.pc.contextId);
          if t.input.actionId in w.journal.rows {
            UsedGrows(w, uuid);
            MoveKeepsInv(w.(used := w.used + {uuid}), a, Inserted(false));
          } else {
            var w' := NewRowKeepsInv(w, a, t, row, uuid);
          }
      }
    }
  }

  lemma ReadBackKeeps(w: World, a: nat)
    requires Inv(w) && a in w.attempts
    ensures Inv(ReadBackStep(w, a))
  {
    hide Chain, AsyncStep, RowOk, PacketOk, TaskOk, AcceptedOk, OneSender, OneMessage, JournaledTaskOk;
    var t := w.attempts[a];
    assert AttemptOk(w.journal, w.net, w.agents, t);
    if t.pc.Inserted? && t.input.actionId in w.journal.rows {
      if !SameBinding(w.journal.rows[t.input.actionId].binding, t.input) {
        MoveKeepsInv(w, a, Done(Raised));
      } else {
        DecideIsOk(w.journal, w.net, w.agents, t.input, t.pc.created);
        MoveKeepsInv(w, a, Decide(t.input, w.journal.rows[t.input.actionId], t.pc.created));
      }
    }
  }

  lemma IncidentKeeps(w: World, a: nat, reason: string)
    requires Inv(w) && a in w.attempts
    ensures Inv(IncidentStep(w, a, reason))
  {
    hide Chain, AsyncStep, RowOk, PacketOk, TaskOk, AcceptedOk, OneSender, OneMessage, JournaledTaskOk;
    var t := w.attempts[a];
    assert AttemptOk(w.journal, w.net, w.agents, t);
    if t.pc.Looping? {
      HeldIsReady(w.journal, w.agents, t.input, t.pc.record);
      IncidentMove(w, a, t, t.pc.record, reason);
    }
  }

  lemma SendMove(w: World, a: nat, t: Attempt)
    requires Inv(w) && a in w.attempts && w.attempts[a] == t && AttemptOk(w.journal, w.net, w.agents, t)
    requires t.pc.Looping? && t.pc.record.taskId.None? && Honest(w.agents, t.input)
    ensures Inv(VerifiedStep(w, a))
  {
    hide Chain, AsyncStep, RowOk, PacketOk, TaskOk, AcceptedOk, OneSender, OneMessage, JournaledTaskOk;
    SendIsJournaled(w, t);
    var b := t.pc.record.binding;
    EmitSendKeepsInv(w, a, t, SendMessage(t.input.actionId, t.input.identity, b.messageId.value,
                                          b.contextId.value, t.input.parts));
  }

  lemma VerifiedKeeps(w: World, a: nat)
    requires Inv(w) && a in w.attempts
    ensures Inv(VerifiedStep(w, a))
  {
    hide Chain, AsyncStep, RowOk, PacketOk, TaskOk, AcceptedOk, OneSender, OneMessage, JournaledTaskOk;
    var t := w.attempts[a];
    assert AttemptOk(w.journal, w.net, w.agents, t);
    if t.pc.Looping? && Honest(w.agents, t.input) {
      if t.pc.record.taskId.None? { SendMove(w, a, t); } else { MoveKeepsInv(w, a, Polling(t.pc.record)); }
    }
  }

  lemma IncidentMove(w: World, a: nat, t: Attempt, r: OutcomeRecord, reason: string)
    requires Inv(w) && a in w.attempts && w.attempts[a] == t && Ready(w.journal, w.agents, t.input, r)
    ensures Inv(SetPc(w, a, PutOrRaise(TaskIncident(r, reason), Finishing)))
  {
    IncidentIsOk(w.journal, w.net, w.agents, t.input, r, reason);
    MoveKeepsInv(w, a, PutOrRaise(TaskIncident(r, reason), Finishing));
  }

  lemma EmitGetKeeps(w: World, a: nat)
    requires Inv(w) && a in w.attempts
    ensures Inv(EmitGetStep(w, a))
  {
    var t := w.attempts[a];
    if t.pc.Polling? && t.pc.record.taskId.Some? { EmitGetKeepsInv(w, a, t); }
  }

  lemma TimeoutKeeps(w: World, a: nat)
    requires Inv(w) && a in w.attempts
    ensures Inv(TimeoutStep(w, a))
  {
    hide Chain, AsyncStep, RowOk, PacketOk, TaskOk, AcceptedOk, OneSender, OneMessage, JournaledTaskOk;
    var t := w.attempts[a];
    assert AttemptOk(w.journal, w.net, w.agents, t);
    if t.pc.AwaitSend? {
      UncertainMove(w, a, t);
    } else if t.pc.AwaitGet? {
      MoveKeepsInv(w, a, Looping(t.pc.record, false));
    }
  }

  lemma UncertainMove(w: World, a: nat, t: Attempt)
    requires Inv(w) && a in w.attempts && w.attempts[a] == t && t.pc.AwaitSend?
    requires AttemptOk(w.journal, w.net, w.agents, t)
    ensures Inv(SetPc(w, a, AfterUncertainSend(t.input, t.pc.record)))
  {
    hide Chain, AsyncStep, RowOk, PacketOk, TaskOk, AcceptedOk, OneSender, OneMessage, JournaledTaskOk;
    HeldIsReady(w.journal, w.agents, t.input, t.pc.record);
    AfterUncertainSendIsOk(w.journal, w.net, w.agents, t.input, t.pc.record);
    MoveKeepsInv(w, a, AfterUncertainSend(t.input, t.pc.record));
  }

  lemma SendReplyMove(w: World, a: nat, t: Attempt, reply: Reply)
    requires Inv(w) && a in w.attempts && w.attempts[a] == t && t.pc.AwaitSend?
    requires AttemptOk(w.journal, w.net, w.agents, t)
    requires t.pc.request in w.net.replies && reply == w.net.replies[t.pc.request]
    ensures Inv(SetPc(w, a, AfterSend(t.pc.record, reply)))
  {
    hide Chain, AsyncStep, RowOk, PacketOk, TaskOk, AcceptedOk, OneSender, OneMessage, JournaledTaskOk;
    HeldIsReady(w.journal, w.agents, t.input, t.pc.record);
    AfterSendIsOk(w.journal, w.net, w.agents, t.input, t.pc.record, reply);
    MoveKeepsInv(w, a, AfterSend(t.pc.record, reply));
  }

  lemma GetReplyMove(w: World, a: nat, t: Attempt, reply: Reply, at: string)
    requires Inv(w) && a in w.attempts && w.attempts[a] == t && t.pc.AwaitGet?
    requires AttemptOk(w.journal, w.net, w.agents, t)
    ensures Inv(SetPc(w, a, AfterGet(t.pc.record, reply, at)))
  {
    hide Chain, AsyncStep, RowOk, PacketOk, TaskOk, AcceptedOk, OneSender, OneMessage, JournaledTaskOk;
    HeldIsReady(w.journal, w.agents, t.input, t.pc.record);
    AfterGetIsOk(w.journal, w.net, w.agents, t.input, t.pc.record, reply, at);
    MoveKeepsInv(w, a, AfterGet(t.pc.record, reply, at));
  }

  lemma ReceiveKeeps(w: World, a: nat, at: string)
    requires Inv(w) && a in w.attempts
    ensures Inv(ReceiveStep(w, a, at))
  {
    hide Chain, AsyncStep, RowOk, PacketOk, TaskOk, AcceptedOk, OneSender, OneMessage, JournaledTaskOk;
    var t := w.attempts[a];
    assert AttemptOk(w.journal, w.net, w.agents, t);
    if t.pc.AwaitSend? && t.pc.request in w.net.replies {
      SendReplyMove(w, a, t, w.net.replies[t.pc.request]);
    } else if t.pc.AwaitGet? && t.pc.request in w.net.replies {
      GetReplyMove(w, a, t, w.net.replies[t.pc.request], at);
    }
  }

  lemma StaleMove(v: Variant, w: World, a: nat, t: Attempt, next: OutcomeRecord, after: After)
    requires Inv(w) && a in w.attempts && w.attempts[a] == t
    requires PutOk(w.journal, w.agents, t.input, next, after)
    requires Extends(w.journal, next) ==> |w.journal.history[t.input.actionId]| > next.sequence
    ensures Inv(SetPc(w, a, AfterStale(v, next, after)))
  {
    hide Chain, AsyncStep, RowOk, PacketOk, TaskOk, AcceptedOk, OneSender, OneMessage, JournaledTaskOk;
    AfterStaleIsOk(v, w, t.input, next, after);
    MoveKeepsInv(w, a, AfterStale(v, next, after));
  }

  lemma SelectMove(v: Variant, w: World, a: nat, t: Attempt) returns (pc: Pc)
    requires Inv(w) && a in w.attempts && w.attempts[a] == t && t.pc.Putting?
    requires AttemptOk(w.journal, w.net, w.agents, t)
    ensures t.pc.next.binding.actionId == t.input.actionId && t.input.actionId in w.journal.rows
    ensures var row := w.journal.rows[t.input.actionId];
      pc == if Admissible(row, t.pc.next) then Swapping(t.pc.next, row, t.pc.after)
        else AfterStale(v, t.pc.next, t.pc.after)
    ensures AttemptOk(w.journal, w.net, w.agents, t.(pc := pc)) && !Sender(pc)
  {
    hide Chain, AsyncStep, JournaledTasksOk, RowsOk, AttemptsOk, NetworkOk, AgentsOk, SendersOk, TrafficOk;
    var id := t.input.actionId;
    var h := w.journal.history[id];
    assert Chain(id, h, w.journal.rows[id]);
    if Extends(w.journal, t.pc.next) { StaleMeansOvertaken(id, h, w.journal.rows[id], t.pc.next); }
    if Admissible(w.journal.rows[id], t.pc.next) {
      AdmittedExtends(id, h, w.journal.rows[id], t.pc.next);
      pc := Swapping(t.pc.next, w.journal.rows[id], t.pc.after);
    } else {
      AfterStaleIsOk(v, w, t.input, t.pc.next, t.pc.after);
      pc := AfterStale(v, t.pc.next, t.pc.after);
    }
  }

  lemma PutSelectKeeps(v: Variant, w: World, a: nat)
    requires Inv(w) && a in w.attempts
    ensures Inv(PutSelectStep(v, w, a))
  {
    hide Chain, AsyncStep, RowOk, PacketOk, TaskOk, AcceptedOk, OneSender, OneMessage, JournaledTaskOk;
    var t := w.attempts[a];
    assert AttemptOk(w.journal, w.net, w.agents, t);
    if t.pc.Putting? {
      var pc := SelectMove(v, w, a, t);
      MoveKeepsInv(w, a, pc);
    }
  }

  lemma AdmittedExtends(id: string, h: seq<OutcomeRecord>, row: OutcomeRecord, next: OutcomeRecord)
    requires Chain(id, h, row) && Admissible(row, next)
    ensures next.sequence == |h| && next.expectedPhase == Some(h[next.sequence - 1].phase)
    ensures row == h[next.sequence - 1]
  {
    assert Version(id, row.binding, |h| - 1, h[|h| - 1]);
  }

  lemma CommitMove(w: World, a: nat, t: Attempt, at: string)
    requires Inv(w) && a in w.attempts && w.attempts[a] == t && t.pc.Swapping?
    requires AttemptOk(w.journal, w.net, w.agents, t)
    requires t.input.actionId in w.journal.rows && w.journal.rows[t.input.actionId] == t.pc.prior
    ensures t.pc.next.binding.actionId == t.input.actionId && t.input.actionId in w.journal.history
    ensures Inv(SetPc(w.(journal := Commit(w.journal, t.pc.next)), a, AfterPut(t.pc.next, t.pc.after, at)))
  {
    hide Chain, AsyncStep, RowOk, PacketOk, TaskOk, AcceptedOk, OneSender, OneMessage, JournaledTaskOk, AfterPut,
      AttemptOk, AfterFits;
    var j' := SwapKeepsJournal(w.journal, w.net, w.agents, t);
    AfterPutIsOk(j', w.net, w.agents, t.input, t.pc.next, t.pc.after, at);
    GrownJournalKeepsInv(w, a, t, j', AfterPut(t.pc.next, t.pc.after, at));
  }

  lemma OvertakenMove(v: Variant, w: World, a: nat, t: Attempt)
    requires Inv(w) && a in w.attempts && w.attempts[a] == t && t.pc.Swapping?
    requires AttemptOk(w.journal, w.net, w.agents, t)
    requires w.journal.rows[t.input.actionId] != t.pc.prior
    ensures Inv(SetPc(w, a, AfterStale(v, t.pc.next, t.pc.after)))
  {
    hide Chain, AsyncStep, RowOk, PacketOk, TaskOk, AcceptedOk, OneSender, OneMessage, JournaledTaskOk;
    var id := t.input.actionId;
    assert Chain(id, w.journal.history[id], w.journal.rows[id]);
    StaleMeansOvertaken(id, w.journal.history[id], w.journal.rows[id], t.pc.next);
    StaleMove(v, w, a, t, t.pc.next, t.pc.after);
  }

  lemma PutUpdateKeeps(v: Variant, w: World, a: nat, at: string)
    requires Inv(w) && a in w.attempts
    ensures Inv(PutUpdateStep(v, w, a, at))
  {
    hide Chain, AsyncStep, RowOk, PacketOk, TaskOk, AcceptedOk, OneSender, OneMessage, JournaledTaskOk;
    var t := w.attempts[a];
    assert AttemptOk(w.journal, w.net, w.agents, t);
    if t.pc.Swapping? {
      if w.journal.rows[t.input.actionId] == t.pc.prior { CommitMove(w, a, t, at); } else { OvertakenMove(v, w, a, t); }
    }
  }

  lemma RereadKeeps(w: World, a: nat)
    requires Inv(w) && a in w.attempts
    ensures Inv(RereadStep(w, a))
  {
    hide Chain, AsyncStep, RowOk, PacketOk, TaskOk, AcceptedOk, OneSender, OneMessage, JournaledTaskOk;
    var t := w.attempts[a];
    assert AttemptOk(w.journal, w.net, w.agents, t);
    if t.pc.Rereading? {
      var row := w.journal.rows[t.input.actionId];
      MoveKeepsInv(w, a, if row.Terminal() then Done(Decided(row)) else Done(Pending));
    }
  }

  lemma CrashKeeps(w: World, a: nat)
    requires Inv(w) && a in w.attempts
    ensures Inv(SetPc(w, a, Crashed))
  {
    assert AttemptOk(w.journal, w.net, w.agents, w.attempts[a]);
    MoveKeepsInv(w, a, Crashed);
  }

  lemma ServeKeeps(w: World, n: nat, uuid: string)
    requires Inv(w) && n in w.net.inflight && uuid !in w.used && uuid != ""
    ensures Inv(Serve(w, n, uuid))
  {
    hide Chain, AsyncStep, RowOk, TaskOk, AcceptedOk, OneSender, OneMessage, JournaledTaskOk, AttemptOk;
    var p := w.net.inflight[n];
    assert PacketOk(w.journal.rows, w.agents.idempotent, p);
    if p.SendMessage? && !(p.identity in w.agents.idempotent && (p.identity, p.messageId) in w.agents.accepted) {
      ServeNewTask(w, n, p, uuid);
    } else {
      if p.SendMessage? { KnownMessage(w, n); }
      var reply := Handle(w.agents, p, uuid).1;
      AnswerKeepsInv(w, n, reply, w.agents);
      FewerSendsKeepTraffic(w, Answered(w.net, n, reply));
      UsedGrows(w.(net := Answered(w.net, n, reply)), uuid);
    }
  }

  lemma ServeNewTask(w: World, n: nat, p: Packet, uuid: string)
    requires Inv(w) && n in w.net.inflight && w.net.inflight[n] == p && p.SendMessage? && uuid !in w.used && uuid != ""
    requires !(p.identity in w.agents.idempotent && (p.identity, p.messageId) in w.agents.accepted)
    ensures Inv(Serve(w, n, uuid))
  {
    var w' := Serve(w, n, uuid);
    assert PacketOk(w.journal.rows, w.agents.idempotent, p);
    NewTaskKeepsAgents(w.journal.rows, w.agents, w.used, p, uuid);
    AnswerKeepsInv(w, n, w'.net.replies[n], w'.agents);
    NewTaskKeepsTraffic(w, n, w'.net, w'.agents, uuid);
    MoreTasks(w.journal, w.agents, w'.agents, w.used, w'.used);
  }

  /** More Tasks and more UUIDs leave the journal's view of them as it was. */
  lemma MoreTasks(j: Journal, g: Agents, g': Agents, used: set<string>, used': set<string>)
    requires RowsOk(j.rows, used) && JournaledTasksOk(j, g) && AgentsGrow(g, g') && used <= used'
    ensures RowsOk(j.rows, used') && JournaledTasksOk(j, g')
  {
    forall id | id in j.rows ensures RowOk(j.rows[id].binding, used') { assert RowOk(j.rows[id].binding, used); }
    forall id, k | id in j.history && 0 <= k < |j.history[id]| ensures JournaledTaskOk(g', id, j.history[id][k]) {
      assert JournaledTaskOk(g, id, j.history[id][k]);
    }
  }

  lemma RefuseKeeps(w: World, n: nat)
    requires Inv(w) && n in w.net.inflight
    ensures Inv(w.(net := Answered(w.net, n, ErrorReply)))
  {
    AnswerKeepsInv(w, n, ErrorReply, w.agents);
    FewerSendsKeepTraffic(w, Answered(w.net, n, ErrorReply));
  }

  lemma GarbleKeeps(w: World, n: nat)
    requires Inv(w) && n in w.net.replies
    ensures Inv(w.(net := w.net.(replies := w.net.replies[n := ErrorReply])))
  {
    var net' := w.net.(replies := w.net.replies[n := ErrorReply]);
    AttemptsSurvive(w.journal, w.net, w.agents, w.journal, net', w.agents, w.attempts);
    FewerSendsKeepTraffic(w, net');
  }

  lemma LoseKeeps(w: World, n: nat)
    requires Inv(w)
    ensures Inv(w.(net := w.net.(inflight := w.net.inflight - {n})))
  {
    var net' := w.net.(inflight := w.net.inflight - {n});
    AttemptsSurvive(w.journal, w.net, w.agents, w.journal, net', w.agents, w.attempts);
    FewerSendsKeepTraffic(w, net');
  }

  lemma ProgressKeepsAgents(rows: map<string, OutcomeRecord>, g: Agents, used: set<string>, taskId: string,
      row: TaskRow)
    requires AgentsOk(rows, g, used) && taskId in g.tasks
    requires row == g.tasks[taskId].(state := row.state, artifacts := row.artifacts)
    ensures AgentsOk(rows, g.(tasks := g.tasks[taskId := row]), used)
    ensures forall id, t :: TaskOf(g.(tasks := g.tasks[taskId := row]), id, t) <==> TaskOf(g, id, t)
  {
    var g' := g.(tasks := g.tasks[taskId := row]);
    forall t | t in g'.tasks
      ensures TaskOk(rows, g', used, t, g'.tasks[t])
    {
      assert TaskOk(rows, g, used, t, g.tasks[t]);
    }
    forall key | key in g'.accepted ensures AcceptedOk(g', key) { assert AcceptedOk(g, key); }
  }

  lemma ProgressKeeps(w: World, taskId: string, row: TaskRow)
    requires Inv(w) && taskId in w.agents.tasks
    requires row == w.agents.tasks[taskId].(state := row.state, artifacts := row.artifacts)
    ensures Inv(w.(agents := w.agents.(tasks := w.agents.tasks[taskId := row])))
  {
    hide AttemptOk, Chain, RowOk, TaskOk, AcceptedOk, OneSender, OneMessage;
    var g' := w.agents.(tasks := w.agents.tasks[taskId := row]);
    ProgressKeepsAgents(w.journal.rows, w.agents, w.used, taskId, row);
    AttemptsSurvive(w.journal, w.net, w.agents, w.journal, w.net, g', w.attempts);
    MoreTasks(w.journal, w.agents, g', w.used, w.used);
    SameTasksKeepTraffic(w, g');
  }

  lemma SameTasksKeepTraffic(w: World, g': Agents)
    requires TrafficOk(w.journal.rows, w.net, w.agents, w.sent)
    requires forall id, t :: TaskOf(g', id, t) <==> TaskOf(w.agents, id, t)
    ensures TrafficOk(w.journal.rows, w.net, g', w.sent)
  {
    forall id | id in w.journal.rows && w.journal.rows[id].binding.receiver.Opaque?
      ensures OneMessage(w.net, g', w.sent, id)
    {
      assert OneMessage(w.net, w.agents, w.sent, id);
    }
  }

  lemma StartKeeps(w: World, a: nat, input: Input)
    requires Inv(w) && a !in w.attempts
    ensures Inv(w.(attempts := w.attempts[a := Attempt(input, Fresh)]))
  {
    var attempts := w.attempts[a := Attempt(input, Fresh)];
    assert AttemptOk(w.journal, w.net, w.agents, Attempt(input, Fresh));
    forall id | id in w.journal.rows && w.journal.rows[id].binding.receiver.Opaque?
      ensures OneSender(attempts, w.sent, id)
    {
      assert OneSender(w.attempts, w.sent, id);
      assert forall b :: MaySend(attempts, b, id) ==> MaySend(w.attempts, b, id);
    }
  }

  lemma EnvironmentStepKeepsInv(v: Variant, w: World, e: Event)
    requires Inv(w) && !OfAttempt(e)
    ensures Inv(Step(v, w, e))
  {
    hide Inv;
    if e.Start? {
      if e.a !in w.attempts { StartKeeps(w, e.a, e.input); }
    } else if e.Deliver? {
      if e.request in w.net.inflight && e.uuid !in w.used && e.uuid != "" { ServeKeeps(w, e.request, e.uuid); }
    } else if e.Refuse? {
      if e.request in w.net.inflight { RefuseKeeps(w, e.request); }
    } else if e.Garble? {
      if e.request in w.net.replies { GarbleKeeps(w, e.request); }
    } else if e.Lose? {
      LoseKeeps(w, e.request);
    } else if e.taskId in w.agents.tasks {
      ProgressKeeps(w, e.taskId, w.agents.tasks[e.taskId].(state := e.state, artifacts := e.artifacts));
    }
  }

  /** The invariant holds after every event, in both variants. */
  lemma StepKeepsInv(v: Variant, w: World, e: Event)
    requires Inv(w)
    ensures Inv(Step(v, w, e))
  {
    hide Inv;
    if !OfAttempt(e) {
      EnvironmentStepKeepsInv(v, w, e);
    } else if e.a in w.attempts {
      AttemptStepKeepsInv(v, w, e);
    }
  }

  lemma AttemptStepKeepsInv(v: Variant, w: World, e: Event)
    requires Inv(w) && OfAttempt(e) && e.a in w.attempts
    ensures Inv(AttemptStep(v, w, e))
  {
    hide Inv;
    match e {
      case BindContext(a, uuid) => BindContextKeeps(w, a, uuid);
      case Insert(a, uuid) => InsertKeeps(w, a, uuid);
      case ReadBack(a) => ReadBackKeeps(w, a);
      case Deadline(a) => DeadlineKeeps(w, a);
      case PinFailed(a) => IncidentKeeps(w, a, "pinned-agent-verification-failed");
      case CapabilityMissing(a) => IncidentKeeps(w, a, "pinned-agent-capability-mismatch");
      case Verified(a) => VerifiedKeeps(w, a);
      case EmitGet(a) => EmitGetKeeps(w, a);
      case Timeout(a) => TimeoutKeeps(w, a);
      case Receive(a, at) => ReceiveKeeps(w, a, at);
      case PutSelect(a) => PutSelectKeeps(v, w, a);
      case PutUpdate(a, at) => PutUpdateKeeps(v, w, a, at);
      case Reread(a) => RereadKeeps(w, a);
      case Crash(a) => CrashKeeps(w, a);
    }
  }

  lemma DeadlineKeeps(w: World, a: nat)
    requires Inv(w) && a in w.attempts
    ensures Inv(SetPc(w, a, Done(Pending)))
  {
    assert AttemptOk(w.journal, w.net, w.agents, w.attempts[a]);
    MoveKeepsInv(w, a, Done(Pending));
  }
}
