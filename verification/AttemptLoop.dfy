/** `_invoke_async` (prototype/temporal-factory/src/adapter.py:110-231) as the loop it is: local `record`, `task`
    and `created`, journal statements, and the exceptions each branch lets out. The loop is proved to be a run of
    the step relation, whatever other attempts do between any two of its statements, so every property of runs
    holds of it; and, when no other attempt works on its action and the agent can be reached, it is proved to
    recover. */
module AttemptLoop {
  import opened Prelude
  import opened Outcome
  import opened Dispatch
  import opened DispatchInvariant
  import opened DispatchSteps
  import opened DispatchRuns
  import opened DispatchTheorems
  import opened DispatchContexts
  import opened LostRace
  import opened LostRaceRun
  import opened AttemptFacts
  import opened DispatchCauses

  datatype Pin = PinUncertain | PinFails | PinLacksCapability | PinVerified

  /** Late: still on its way when the caller gives up waiting; it may yet arrive. */
  datatype Fate = Arrives | RequestLost | ReplyLost | Late | Refused

  /** What the outside world does to one iteration: the pin, the send, the Task's progress, the poll, the clock. */
  datatype Turn = Turn(pin: Pin, send: Fate, progress: Option<(TaskState, seq<Artifact>)>, poll: Fate, at: string)

  /** Nothing but requests and replies goes wrong, and the Task does not fail. */
  predicate KindTurn(t: Turn) {
    && (t.pin.PinUncertain? || t.pin.PinVerified?) && !t.send.Refused? && !t.poll.Refused?
    && (t.progress.Some? ==> Healthy(t.progress.value.0, t.progress.value.1))
  }

  /** A turn whose requests and replies all go through. */
  predicate CleanTurn(t: Turn) { t.pin.PinVerified? && t.send.Arrives? && t.poll.Arrives? }

  /** What a turn makes of the action's Task: a first Message that arrives creates it, and progress says whether it has
      completed. None: no Task yet. */
  function TaskAfter(seen: Option<bool>, t: Turn): Option<bool> {
    var sent := if seen.None? && t.pin.PinVerified? && (t.send.Arrives? || t.send.ReplyLost?) then Some(false)
      else seen;
    if sent.Some? && t.progress.Some? then Some(t.progress.value.0.TaskCompleted?) else sent
  }

  function TaskAfterTurns(seen: Option<bool>, turns: seq<Turn>, n: nat): Option<bool>
    requires n <= |turns|
  {
    if n == 0 then seen else TaskAfter(TaskAfterTurns(seen, turns, n - 1), turns[n - 1])
  }

  /** In some turn everything goes through and the Task has completed, in that turn, before it, or before the
      attempt. */
  predicate GoesThrough(turns: seq<Turn>, seen: Option<bool>) {
    && (forall k :: 0 <= k < |turns| ==> KindTurn(turns[k]))
    && (exists k :: 0 <= k < |turns| && RecoversAt(turns, seen, k))
  }

  predicate RecoversAt(turns: seq<Turn>, seen: Option<bool>, k: nat)
    requires k < |turns|
  {
    CleanTurn(turns[k]) && TaskAfterTurns(seen, turns, k + 1) == Some(true)
  }

  predicate WellFormed(input: Input) {
    input.actionId != "" && input.runId != "" && input.definitionDigest != "" && input.identity != ""
  }

  /** A row that has not ended, of these arguments. */
  ghost predicate Recoverable(w: World, input: Input) {
    && input.actionId in w.journal.rows && !w.journal.rows[input.actionId].Terminal()
    && SameBinding(w.journal.rows[input.actionId].binding, input) && WellFormed(input)
  }

  /** The agent's Task is at least as far as `seen` says. */
  ghost predicate AtLeast(g: Agents, id: string, seen: Option<bool>) {
    (seen.Some? ==> HasTask(g, id)) && (seen == Some(true) ==> HasFinished(g, id))
  }

  lemma OnlyTask(w: World, id: string, t: string)
    requires Inv(w) && TaskOf(w.agents, id, t)
    ensures forall u :: TaskOf(w.agents, id, u) ==> u == t
  {
    hide JournalOk, AttemptsOk, NetworkOk, SendersOk, AgentsOk, TrafficOk;
    forall u | TaskOf(w.agents, id, u) ensures u == t {
      OneTask(w.journal.rows, w.net, w.agents, w.used, w.sent, id, t, u);
    }
  }

  lemma Progressed(g: Agents, id: string, t: string, row: TaskRow)
    requires TaskOf(g, id, t) && row.origin == id && forall u :: TaskOf(g, id, u) ==> u == t
    ensures var g' := g.(tasks := g.tasks[t := row]);
      && HasTask(g', id) && HasTask(g, id) && (HasFinished(g', id) <==> row.state.TaskCompleted?)
      && (Healthy(row.state, row.artifacts) && TasksHealthy(g, id) ==> TasksHealthy(g', id))
  {
    hide Healthy;
    var g' := g.(tasks := g.tasks[t := row]);
    assert TaskOf(g', id, t);
    forall u | TaskOf(g', id, u) ensures u == t || TaskOf(g, id, u) {}
  }

  lemma KnownTask(g: Agents, id: string, record: OutcomeRecord)
    requires record.taskId.Some? && TaskOf(g, id, record.taskId.value)
    ensures HasTask(g, id)
  {
  }

  /** One turn: the send, if there is one, and then the Task's progress, carry the tracked state over. */
  lemma Tracked(g: Agents, sent: Agents, g': Agents, id: string, seen: Option<bool>, turn: Turn)
    requires AtLeast(g, id, seen) && AgentsSteady(g, sent, id)
    requires turn.pin.PinVerified? && (turn.send.Arrives? || turn.send.ReplyLost?) ==> HasTask(sent, id)
    requires HasTask(g', id) <==> HasTask(sent, id)
    requires HasFinished(g', id) <==>
      if turn.progress.Some? && HasTask(sent, id) then turn.progress.value.0.TaskCompleted? else HasFinished(sent, id)
    ensures AtLeast(g', id, TaskAfter(seen, turn))
  {
    hide HasTask, HasFinished;
  }

  lemma StillTracked(g: Agents, g': Agents, id: string, seen: Option<bool>)
    requires AtLeast(g, id, seen) && AgentsSteady(g, g', id)
    ensures AtLeast(g', id, seen)
  {
    hide HasTask, HasFinished;
  }

  /** The outcome database, wire and agents as attempt `a` finds them. `world.attempts[a]` only records where the
      attempt stands; `rivals[k]` is what everyone else does before the attempt's k-th next statement; `busy` holds
      the attempts of the same action that there were when it started, and itself. */
  class Host {
    const a: nat
    const input: Input
    ghost const start: World
    ghost const busy: set<nat>
    var world: World
    var rivals: seq<seq<Event>>
    ghost var trace: seq<Event>

    ghost predicate At(pc: Pc)
      reads this
    {
      && world == Run(AsWritten, start, trace) && Inv(world)
      && a in world.attempts && world.attempts[a] == Attempt(input, pc)
      && forall k, e :: 0 <= k < |rivals| && e in rivals[k] ==> Rival(a, e)
    }

    /** No other attempt works on the action, its agent deduplicates, and its Task, if there is one, is healthy. */
    ghost predicate Calm()
      reads this
    {
      && (forall k, e :: 0 <= k < |rivals| && e in rivals[k] ==> Peaceful(e, busy, input.actionId))
      && a in busy && BusyWith(world.attempts, busy, input.actionId)
      && input.mode.Participating? && input.identity in world.agents.idempotent
      && TasksHealthy(world.agents, input.actionId)
    }

    ghost predicate RowIs(r: OutcomeRecord)
      reads this
    {
      input.actionId in world.journal.rows && world.journal.rows[input.actionId] == r
    }

    /** `next` may follow the row. */
    ghost predicate Admits(next: OutcomeRecord)
      reads this
    {
      input.actionId in world.journal.rows && Admissible(world.journal.rows[input.actionId], next)
    }

    /** Valid arguments for a journaled action. */
    ghost predicate Known()
      reads this
    {
      && WellFormed(input) && input.actionId in world.journal.rows
      && SameBinding(world.journal.rows[input.actionId].binding, input)
    }

    /** A fresh Activity attempt. */
    constructor (w: World, id: nat, arguments: Input, others: seq<seq<Event>>)
      requires Inv(w) && id !in w.attempts
      requires forall k, e :: 0 <= k < |others| && e in others[k] ==> Rival(id, e)
      ensures At(Fresh) && start == w && input == arguments && a == id && rivals == others
      ensures world == Step(AsWritten, w, Start(id, arguments))
      ensures a in busy && BusyWith(world.attempts, busy, arguments.actionId)
      ensures forall b :: b in busy ==>
        b == id || (b in w.attempts && w.attempts[b].input.actionId == arguments.actionId)
    {
      a, input, start, rivals := id, arguments, w, others;
      busy := (set b | b in w.attempts && w.attempts[b].input.actionId == arguments.actionId) + {id};
      world := w.(attempts := w.attempts[id := Attempt(arguments, Fresh)]);
      trace := [Start(id, arguments)];
      new;
      hide Inv, Run;
      StepKeepsInv(AsWritten, w, Start(id, arguments));
      assert [Start(id, arguments)] == [] + [Start(id, arguments)];
      RunSnoc(AsWritten, w, [], Start(id, arguments));
    }

    /** One step, computed as `w'`. */
    method Advance(ghost e: Event, w': World, ghost pc: Pc, ghost pc': Pc)
      requires At(pc) && w' == Step(AsWritten, world, e) && !e.Start?
      requires a in w'.attempts && w'.attempts[a] == Attempt(input, pc')
      modifies this
      ensures At(pc') && world == w' && rivals == old(rivals)
      ensures old(BusyWith(world.attempts, busy, input.actionId)) ==> BusyWith(world.attempts, busy, input.actionId)
    {
      hide Inv, Step, BusyWith;
      StepKeepsInv(AsWritten, world, e);
      if BusyWith(world.attempts, busy, input.actionId) { StepKeepsInputs(world, e, busy, input.actionId); }
      RunSnoc(AsWritten, start, trace, e);
      world := w';
      trace := trace + [e];
    }

    /** Whatever everyone else does before the next statement. */
    method Others(ghost pc: Pc, ghost finished: bool)
      requires At(pc)
      modifies this
      ensures At(pc) && world.agents.idempotent == old(world).agents.idempotent
      ensures ContextsStay(old(world).journal, world.journal)
      ensures old(Calm()) && old(RequestGood(world, a, finished)) ==>
        Calm() && Steady(old(world), world, input.actionId) && RequestGood(world, a, finished)
    {
      hide Inv, Step, Run, RequestGood, BusyWith, TasksHealthy, HasTask, HasFinished, Peaceful;
      SteadyHere(world.agents, input.actionId);
      if rivals != [] {
        var events := rivals[0];
        RivalsLeave(a, world, events);
        RunKeepsInv(AsWritten, world, events);
        RunKeepsAgents(world, events);
        RunContextsStay(AsWritten, world, events);
        if Calm() && RequestGood(world, a, finished) { PeacefulRun(world, events, a, busy, finished); }
        RunConcat(AsWritten, start, trace, events);
        trace := trace + events;
        world := Run(AsWritten, world, events);
        rivals := rivals[1..];
      }
    }

    method NewUuid() returns (uuid: string)
      ensures uuid !in world.used && uuid != ""
    {
      var n := FirstFree("uuid-", world.used);
      uuid := "uuid-" + Decimal(n);
    }

    /** adapter.py:127; a2a_outcome.py:186-195. None: ValueError. */
    method ContextFor() returns (contextId: Option<string>)
      requires At(Fresh)
      modifies this
      ensures contextId.Some? ==> At(Contexted(contextId.value))
      ensures contextId.None? ==> At(Done(Raised))
      ensures contextId.Some? <==> input.runId != "" && input.identity != ""
      ensures ContextsStay(old(world).journal, world.journal)
      ensures contextId.Some? ==>
        var key := (input.runId, input.identity);
        && key in world.journal.contexts && world.journal.contexts[key] == contextId.value
        && (key in old(world.journal.contexts) ==> contextId.value == old(world.journal.contexts)[key])
      ensures old(Calm()) ==> Calm() && Steady(old(world), world, input.actionId)
    {
      hide Inv, Run;
      Others(Fresh, false);
      var uuid := NewUuid();
      if input.runId == "" || input.identity == "" {
        Advance(BindContext(a, uuid), SetPc(world, a, Done(Raised)), Fresh, Done(Raised));
        return None;
      }
      var key := (input.runId, input.identity);
      var contexts := world.journal.contexts;
      if key !in contexts { contexts := contexts[key := uuid]; }
      contextId := Some(contexts[key]);
      Advance(BindContext(a, uuid),
              SetPc(world.(journal := world.journal.(contexts := contexts), used := world.used + {uuid}), a,
                Contexted(contexts[key])),
              Fresh, Contexted(contexts[key]));
    }

    /** adapter.py:128-133; a2a_outcome.py:231-251. None: ValueError. */
    method Begin(contextId: string) returns (begun: Option<(OutcomeRecord, bool)>)
      requires At(Contexted(contextId))
      modifies this
      ensures begun.None? ==> At(Done(Raised))
      ensures begun.Some? ==> At(Decide(input, begun.value.0, begun.value.1))
      ensures old(Calm()) && old(Known()) ==>
        && begun == Some((old(world).journal.rows[input.actionId], false))
        && Calm() && Steady(old(world), world, input.actionId)
    {
      hide Inv, Run, Decide;
      Others(Contexted(contextId), false);
      var uuid := NewUuid();
      match Submission(input, uuid, contextId) {
        case Failure(_) =>
          Advance(Insert(a, uuid), SetPc(world, a, Done(Raised)), Contexted(contextId), Done(Raised));
          return None;
        case Success(expected) =>
          var created := input.actionId !in world.journal.rows;
          Advance(Insert(a, uuid),
                  SetPc(world.(journal := InsertRow(world.journal, expected), used := world.used + {uuid}), a,
                    Inserted(created)),
                  Contexted(contextId), Inserted(created));
          Others(Inserted(created), false);
          RowThere(world, a);
          var row := world.journal.rows[input.actionId];
          if !SameBinding(row.binding, input) {
            Advance(ReadBack(a), SetPc(world, a, Done(Raised)), Inserted(created), Done(Raised));
            return None;
          }
          begun := Some((row, created));
          Advance(ReadBack(a), SetPc(world, a, Decide(input, row, created)), Inserted(created),
            Decide(input, row, created));
      }
    }

    /** a2a_outcome.py:213-229: read and test, then write if the whole stored value is still the one read.
        False: StaleOutcome. `after` says which statement follows. */
    method Put(next: OutcomeRecord, after: After, at: string) returns (stored: bool)
      requires At(Putting(next, after))
      modifies this
      ensures stored ==> At(AfterPut(next, after, at))
      ensures !stored ==> At(AfterStale(AsWritten, next, after))
      ensures old(Calm()) && old(Admits(next)) ==>
        stored && RowIs(next) && Calm() && AgentsSteady(old(world).agents, world.agents, input.actionId)
    {
      hide Inv, Run, AfterPut, AfterStale, AgentsSteady, TasksHealthy, BusyWith, HasTask, HasFinished, RequestGood,
        Peaceful;
      Idle(world, a);
      ghost var w := world;
      Others(Putting(next, after), false);
      RowThere(world, a);
      var id := next.binding.actionId;
      var prior := world.journal.rows[id];
      if prior.Terminal() || prior.sequence + 1 != next.sequence || next.expectedPhase != Some(prior.phase) {
        var pc := AfterStale(AsWritten, next, after);
        Advance(PutSelect(a), SetPc(world, a, pc), Putting(next, after), pc);
        return false;
      }
      Advance(PutSelect(a), SetPc(world, a, Swapping(next, prior, after)), Putting(next, after),
        Swapping(next, prior, after));
      Idle(world, a);
      ghost var w1 := world;
      Others(Swapping(next, prior, after), false);
      if old(Calm()) && old(Admits(next)) { SteadyComposes(w.agents, w1.agents, world.agents, input.actionId); }
      RowThere(world, a);
      stored := world.journal.rows[id] == prior;
      if stored {
        var pc := AfterPut(next, after, at);
        Advance(PutUpdate(a, at), SetPc(world.(journal := Commit(world.journal, next)), a, pc),
          Swapping(next, prior, after), pc);
      } else {
        var pc := AfterStale(AsWritten, next, after);
        Advance(PutUpdate(a, at), SetPc(world, a, pc), Swapping(next, prior, after), pc);
      }
    }

    /** adapter.py:225-231: the handler of StaleOutcome. */
    method OnStale() returns (answer: Answer)
      requires At(Rereading)
      modifies this
      ensures At(Done(answer))
    {
      hide Inv, Run;
      Others(Rereading, false);
      RowThere(world, a);
      var current := world.journal.rows[input.actionId];
      if current.phase.Confirmed? { answer := Returned(current.receipt); }
      else if current.phase.Incident? { answer := UnresolvedAnswer(current); }
      else { answer := Pending; }
      Advance(Reread(a), SetPc(world, a, Done(answer)), Rereading, Done(answer));
    }

    /** A put whose record is the attempt's last word. */
    method Settle(next: OutcomeRecord, at: string) returns (answer: Answer)
      requires At(Putting(next, Finishing))
      modifies this
      ensures At(Done(answer))
      ensures old(Calm()) && old(Admits(next)) ==> answer == Decided(next) && RowIs(next)
    {
      hide Inv, Run;
      var stored := Put(next, Finishing, at);
      if stored { answer := Decided(next); } else { answer := OnStale(); }
    }

    /** `task_incident`, `put` and return: every branch that gives up. */
    method GiveUp(record: OutcomeRecord, reason: string, at: string) returns (answer: Answer)
      requires At(PutOrRaise(TaskIncident(record, reason), Finishing))
      modifies this
      ensures At(Done(answer))
    {
      hide Inv, Run;
      match TaskIncident(record, reason) {
        case Success(next) => answer := Settle(next, at);
        case Failure(_) => answer := Raised;
      }
    }

    /** `_finish`, adapter.py:236-251. */
    method FinishTask(record: OutcomeRecord, task: Snapshot, at: string) returns (answer: Answer)
      requires At(Finish(record, task, at))
      modifies this
      ensures At(Done(answer))
      ensures old(Calm()) && old(RowIs(record)) && Completes(record, task) ==>
        Recovered(answer) && TellsText(world.journal.rows[input.actionId], task)
    {
      hide Inv, Run, TellsText;
      if RowIs(record) && Completes(record, task) { CompletionTells(world, input.actionId, record, task, at); }
      var finished: Result<OutcomeRecord>;
      match CompletedReceipt(task, record, at) {
        case Success(receipt) => finished := TaskFinished(record, receipt);
        case Failure(reason) => finished := TaskIncident(record, reason);
      }
      match finished {
        case Success(next) =>
          answer := Settle(next, at);
          if input.actionId in world.journal.rows && world.journal.rows[input.actionId].taskId.Some? {
            RowNamesTask(world, input.actionId);
          }
        case Failure(_) => answer := Raised;
      }
    }

    /** The row is confirmed with the receipt returned, whose Task is the one the row journaled. */
    ghost predicate Recovered(answer: Answer)
      reads this
    {
      && input.actionId in world.journal.rows
      && var row := world.journal.rows[input.actionId];
         && row.phase.Confirmed? && row.receipt.Some? && answer == Returned(row.receipt)
         && row.taskId.Some? && row.receipt.value.taskId == Str(row.taskId.value)
         && TaskOf(world.agents, input.actionId, row.taskId.value)
    }

    /** The request reaches its agent. */
    method Arrive(request: nat, ghost pc: Pc, ghost finished: bool)
      requires At(pc) && (pc.AwaitSend? || pc.AwaitGet?) && pc.request == request && request in world.net.inflight
      modifies this
      ensures At(pc)
      ensures old(Calm()) && old(RequestGood(world, a, finished)) ==>
        && Calm() && Steady(old(world), world, input.actionId) && request in world.net.replies
        && RequestGood(world, a, finished) && (pc.AwaitSend? ==> HasTask(world.agents, input.actionId))
    {
      hide Inv, Run, Handle, RowSame, AgentsSteady, BusyWith, TasksHealthy, HasTask, HasFinished, Serve, RequestGood,
        Peaceful;
      var newId := NewUuid();
      if Calm() && RequestGood(world, a, finished) {
        OwnRequestServed(world, a, request, newId, finished);
        SteadyWorld(world, input.actionId);
        SteadyServe(world, world, request, newId, input.actionId);
      }
      ServeOnly(world, request, newId);
      Advance(Deliver(request, newId), Serve(world, request, newId), pc, pc);
    }

    /** A request on its way: it arrives, is lost, is refused, is late, or its reply never comes. */
    method Carry(request: nat, fate: Fate, ghost pc: Pc, ghost finished: bool)
      requires At(pc) && (pc.AwaitSend? || pc.AwaitGet?) && pc.request == request
      modifies this
      ensures At(pc)
      ensures old(Calm()) && old(RequestGood(world, a, finished)) && !fate.Refused? ==>
        && Calm() && Steady(old(world), world, input.actionId)
        && (request in world.net.replies ==> RequestGood(world, a, finished))
        && (fate.Arrives? || fate.ReplyLost? ==> request in world.net.replies)
        && ((fate.Arrives? || fate.ReplyLost?) && pc.AwaitSend? ==> HasTask(world.agents, input.actionId))
    {
      hide Inv, Run, Handle, RowSame, AgentsSteady, BusyWith, TasksHealthy, HasTask, HasFinished, SnapshotFits, Serve;
      ghost var calm := Calm() && RequestGood(world, a, finished);
      Others(pc, finished);
      if request in world.net.inflight {
        NotYetAnswered(world, request);
        if fate.Arrives? || fate.ReplyLost? {
          ghost var w := world;
          Arrive(request, pc, finished);
          if calm { SteadyJoins(old(world), w, world, input.actionId); }
        } else if fate.RequestLost? {
          Advance(Lose(request), world.(net := world.net.(inflight := world.net.inflight - {request})), pc, pc);
        } else if fate.Refused? {
          Advance(Refuse(request), world.(net := Answered(world.net, request, ErrorReply)), pc, pc);
        }
      }
    }

    /** adapter.py:167-172. None: UncertainSubmission. */
    method SendMessageAsync(record: OutcomeRecord, created: bool, fate: Fate) returns (reply: Option<Reply>)
      requires At(Looping(record, created)) && record.taskId.None? && Honest(world.agents, input)
      modifies this
      ensures reply.None? ==> At(AfterUncertainSend(input, record))
      ensures reply.Some? ==> At(AfterSend(record, reply.value))
      ensures old(Calm()) && !fate.Refused? ==>
        && Calm() && Steady(old(world), world, input.actionId)
        && (fate.Arrives? ==> reply.Some?)
        && (fate.Arrives? || fate.ReplyLost? ==> HasTask(world.agents, input.actionId))
        && (reply.Some? ==> ReplyFits(reply.value, record.binding) && HasTask(world.agents, input.actionId))
    {
      hide Inv, Run, Handle, AfterSend, AfterUncertainSend, TasksHealthy, SnapshotFits, HasTask, HasFinished, RowSame,
        BusyWith;
      var n := SendRequest(record, created);
      ghost var pc, w := AwaitSend(record, created, n), world;
      Carry(n, fate, pc, false);
      if old(Calm()) && !fate.Refused? { SteadyJoins(old(world), w, world, input.actionId); }
      if !fate.ReplyLost? && n in world.net.replies {
        reply := Some(world.net.replies[n]);
        Advance(Receive(a, ""), SetPc(world, a, AfterSend(record, reply.value)), pc, AfterSend(record, reply.value));
      } else {
        reply := None;
        Advance(Timeout(a), SetPc(world, a, AfterUncertainSend(input, record)), pc, AfterUncertainSend(input, record));
      }
    }

    method SendRequest(record: OutcomeRecord, created: bool) returns (request: nat)
      requires At(Looping(record, created)) && record.taskId.None? && Honest(world.agents, input)
      modifies this
      ensures At(AwaitSend(record, created, request))
      ensures old(Calm()) ==> Calm() && Steady(old(world), world, input.actionId) && RequestGood(world, a, false)
    {
      hide Inv, Run, AgentsSteady, RowSame, TasksHealthy, BusyWith, HasTask, HasFinished, SnapshotFits;
      Others(Looping(record, created), false);
      RecordFacts(world, a);
      UnusedRequest(world);
      request := world.net.next;
      Advance(Verified(a),
              SetPc(world.(net := Emit(world.net, SendPacket(input, record)),
                           sent := world.sent[input.actionId := Sent(world.sent, input.actionId) + 1]),
                    a, AwaitSend(record, created, request)),
              Looping(record, created), AwaitSend(record, created, request));
    }

    method SendGet(record: OutcomeRecord) returns (request: nat)
      requires At(Polling(record))
      modifies this
      ensures At(AwaitGet(record, request))
      ensures old(Calm()) ==>
        && Calm() && Steady(old(world), world, input.actionId)
        && RequestGood(world, a, HasFinished(old(world).agents, input.actionId))
    {
      hide Inv, Run, RowSame, TasksHealthy, BusyWith, HasTask, HasFinished, SnapshotFits;
      Others(Polling(record), false);
      RecordFacts(world, a);
      UnusedRequest(world);
      request := world.net.next;
      Advance(EmitGet(a),
              SetPc(world.(net := Emit(world.net, GetTask(input.actionId, input.identity, record.taskId.value))),
                    a, AwaitGet(record, request)),
              Polling(record), AwaitGet(record, request));
    }

    /** The agent works on the action's Task, if there is one. */
    method TaskProgresses(progress: Option<(TaskState, seq<Artifact>)>, ghost pc: Pc)
      requires At(pc)
      modifies this
      ensures At(pc) && rivals == old(rivals) && world.journal == old(world).journal
      ensures old(Calm()) && (progress.Some? ==> Healthy(progress.value.0, progress.value.1)) ==>
        && Calm() && (HasTask(world.agents, input.actionId) <==> HasTask(old(world).agents, input.actionId))
        && (HasFinished(world.agents, input.actionId) <==>
              if progress.Some? && HasTask(old(world).agents, input.actionId) then progress.value.0.TaskCompleted?
              else HasFinished(old(world).agents, input.actionId))
    {
      hide Inv, Run, BusyWith, Healthy;
      if progress.Some? && exists t :: t in world.agents.tasks && world.agents.tasks[t].origin == input.actionId {
        var id :| id in world.agents.tasks && world.agents.tasks[id].origin == input.actionId;
        OnlyTask(world, input.actionId, id);
        var row := world.agents.tasks[id].(state := progress.value.0, artifacts := progress.value.1);
        Progressed(world.agents, input.actionId, id, row);
        Advance(Progress(id, progress.value.0, progress.value.1),
                world.(agents := world.agents.(tasks := world.agents.tasks[id := row])), pc, pc);
      }
    }

    /** adapter.py:200-208. None: UncertainSubmission. */
    method PollTask(record: OutcomeRecord, turn: Turn) returns (reply: Option<Reply>)
      requires At(Polling(record))
      modifies this
      ensures reply.None? ==> At(Looping(record, false))
      ensures reply.Some? ==> At(AfterGet(record, reply.value, turn.at))
      ensures old(Calm()) && KindTurn(turn) ==>
        && Calm() && Steady(old(world), world, input.actionId)
        && (turn.poll.Arrives? ==> reply.Some?)
        && (reply.Some? ==>
              && ReplyFits(reply.value, record.binding) && record.taskId == Some(reply.value.task.id)
              && (old(HasFinished(world.agents, input.actionId)) ==> reply.value.task.state.TaskCompleted?))
    {
      hide Inv, Run, Handle, AfterGet, TasksHealthy, SnapshotFits, HasTask, HasFinished, RowSame, BusyWith;
      ghost var finished := HasFinished(world.agents, input.actionId);
      var n := SendGet(record);
      ghost var pc, w := AwaitGet(record, n), world;
      Carry(n, turn.poll, pc, finished);
      if old(Calm()) && KindTurn(turn) { SteadyJoins(old(world), w, world, input.actionId); }
      if !turn.poll.ReplyLost? && n in world.net.replies {
        reply := Some(world.net.replies[n]);
        var next := AfterGet(record, reply.value, turn.at);
        Advance(Receive(a, turn.at), SetPc(world, a, next), pc, next);
      } else {
        reply := None;
        Advance(Timeout(a), SetPc(world, a, Looping(record, false)), pc, Looping(record, false));
      }
    }

    /** adapter.py:180-190: except UncertainSubmission. `over`: the attempt has returned `answer`. */
    method Uncertain(record: OutcomeRecord, at: string) returns (over: bool, answer: Answer, next: OutcomeRecord)
      requires At(AfterUncertainSend(input, record)) && Open(record)
      modifies this
      ensures At(if over then Done(answer) else Looping(next, false))
      ensures old(Calm()) && old(RowIs(record)) ==>
        !over && Calm() && RowIs(next) && AgentsSteady(old(world).agents, world.agents, input.actionId)
    {
      hide Inv, Run, SnapshotFits, TasksHealthy, HasTask, HasFinished, BusyWith, Peaceful;
      answer, next := Raised, record;
      if record.phase.Submitted? {
        match SendAmbiguous(record) {
          case Failure(_) => return true, Raised, record;
          case Success(unknown) =>
            next := unknown;
            var stored := Put(next, if input.mode.Opaque? then OpaqueUnknown else Resume, at);
            if !stored {
              answer := OnStale();
              return true, answer, next;
            }
        }
      }
      if input.mode.Opaque? {
        answer := GiveUp(next, "opaque-effect-unknown", at);
        return true, answer, next;
      }
      return false, Raised, next;
    }

    /** adapter.py:173-179, 191-199: the reply is validated and the Task id journaled. */
    method JournalTask(record: OutcomeRecord, reply: Reply, at: string)
      returns (over: bool, answer: Answer, next: OutcomeRecord)
      requires At(AfterSend(record, reply)) && Open(record) && record.taskId.None? && record.binding.effectKind.A2A?
      modifies this
      ensures At(if over then Done(answer) else Polling(next))
      ensures old(Calm()) && old(RowIs(record)) && ReplyFits(reply, record.binding) ==>
        if over then Recovered(answer)
        else Calm() && RowIs(next) && AgentsSteady(old(world).agents, world.agents, input.actionId)
    {
      hide Inv, Run, SnapshotFits, TasksHealthy, HasTask, HasFinished, BusyWith, Peaceful;
      answer, next := Raised, record;
      if ReplyFits(reply, record.binding) { FitsValidates(reply.task, record); }
      if !(reply.TaskReply? && ValidateAsyncTask(reply.task, record.binding.contextId, None).Some?) {
        answer := GiveUp(record, "async-send-binding-inconsistent", at);
        return true, answer, next;
      }
      var task := reply.task;
      match TaskStarted(record, Str(task.id)) {
        case Failure(_) => return true, Raised, record;
        case Success(started) =>
          next := started;
          var stored := Put(next, TaskKnown(task), at);
          if !stored {
            // except Exception: StaleOutcome is one
            answer := GiveUp(next, "async-send-binding-inconsistent", at);
            return true, answer, next;
          }
      }
      if task.state.TaskCompleted? {
        if ReplyFits(reply, record.binding) { FitsValidates(task, next); }
        answer := FinishTask(next, task, at);
        return true, answer, next;
      }
      return false, Raised, next;
    }

    /** adapter.py:165-199: the first Message or its resend, and what its reply or its absence leads to. `over`: the
        attempt has returned `answer`; otherwise it goes on with `next`, polling its Task (`polling`) or looping. */
    method Dispatch(record: OutcomeRecord, created: bool, turn: Turn)
      returns (over: bool, answer: Answer, next: OutcomeRecord, polling: bool)
      requires At(Looping(record, created)) && record.taskId.None? && Honest(world.agents, input)
      modifies this
      ensures At(if over then Done(answer) else if polling then Polling(next) else Looping(next, false))
      ensures old(Calm()) && old(RowIs(record)) && KindTurn(turn) ==>
        if over then Recovered(answer)
        else
          && Calm() && RowIs(next) && AgentsSteady(old(world).agents, world.agents, input.actionId)
          && (turn.send.Arrives? ==> polling)
          && (turn.send.Arrives? || turn.send.ReplyLost? ==> HasTask(world.agents, input.actionId))
    {
      hide Inv, Run, SnapshotFits, TasksHealthy, HasTask, HasFinished, BusyWith, Peaceful, Recovered, AfterSend,
        AfterUncertainSend;
      RecordFacts(world, a);
      var reply := SendMessageAsync(record, created, turn.send);
      ghost var g := world.agents;
      if reply.None? {
        over, answer, next := Uncertain(record, turn.at);
        polling := false;
      } else {
        over, answer, next := JournalTask(record, reply.value, turn.at);
        polling := true;
      }
      if old(Calm()) && old(RowIs(record)) && KindTurn(turn) && !over {
        SteadyComposes(old(world).agents, g, world.agents, input.actionId);
      }
    }

    /** One verified turn up to the poll: a Message or none, and the agent's own progress. */
    method Contact(record: OutcomeRecord, created: bool, turn: Turn, ghost seen: Option<bool>)
      returns (over: bool, answer: Answer, next: OutcomeRecord, polling: bool)
      requires At(Looping(record, created)) && Honest(world.agents, input) && turn.pin.PinVerified?
      modifies this
      ensures At(if over then Done(answer) else if polling then Polling(next) else Looping(next, false))
      ensures old(Calm() && RowIs(record) && AtLeast(world.agents, input.actionId, seen)) && KindTurn(turn) ==>
        if over then Recovered(answer)
        else
          && Calm() && RowIs(next) && AtLeast(world.agents, input.actionId, TaskAfter(seen, turn))
          && (turn.send.Arrives? ==> polling)
    {
      hide Inv, Run, SnapshotFits, TasksHealthy, TaskOf, HasTask, HasFinished, BusyWith, Peaceful, Recovered, TaskAfter,
        AtLeast;
      ghost var calm := Calm() && RowIs(record) && KindTurn(turn) && AtLeast(world.agents, input.actionId, seen);
      ghost var g := world.agents;
      over, answer, next, polling := false, Raised, record, true;
      if record.taskId.None? {
        over, answer, next, polling := Dispatch(record, created, turn);
        if over { return; }
      } else {
        RecordFacts(world, a);
        if calm { KnownTask(world.agents, input.actionId, record); }
        SteadyHere(g, input.actionId);
        Advance(Verified(a), SetPc(world, a, Polling(record)), Looping(record, created), Polling(record));
      }
      ghost var sent := world.agents;
      TaskProgresses(turn.progress, if polling then Polling(next) else Looping(next, false));
      if calm { Tracked(g, sent, world.agents, input.actionId, seen, turn); }
    }

    /** adapter.py:198-223: one poll and what it decides. */
    method Observe(record: OutcomeRecord, turn: Turn) returns (over: bool, answer: Answer)
      requires At(Polling(record))
      modifies this
      ensures At(if over then Done(answer) else Looping(record, false))
      ensures old(Calm()) && old(RowIs(record)) && KindTurn(turn) ==>
        if over then Recovered(answer)
        else
          && Calm() && RowIs(record) && AgentsSteady(old(world).agents, world.agents, input.actionId)
          && !(turn.poll.Arrives? && old(HasFinished(world.agents, input.actionId)))
    {
      hide Inv, Run, SnapshotFits, TasksHealthy, Finish, HasTask, HasFinished, BusyWith;
      answer := Raised;
      RecordFacts(world, a);
      var reply := PollTask(record, turn);
      if reply.None? { return false, Raised; }
      if old(Calm()) && old(RowIs(record)) && KindTurn(turn) { FitsValidates(reply.value.task, record); }
      if !reply.value.TaskReply? {
        answer := GiveUp(record, "async-task-binding-inconsistent", turn.at);
        return true, answer;
      }
      match ValidateAsyncTask(reply.value.task, record.binding.contextId, record.taskId) {
        case None =>
          answer := GiveUp(record, "async-task-binding-inconsistent", turn.at);
          return true, answer;
        case Some(state) =>
          if state.TaskCompleted? {
            answer := FinishTask(record, reply.value.task, turn.at);
            return true, answer;
          }
          if state.TaskEnded? {
            answer := GiveUp(record, "async-task-terminal-without-artifact", turn.at);
            return true, answer;
          }
          return false, Raised;
      }
    }

    /** adapter.py:127-145: the row is begun and read; attempts whose action has ended return at once. */
    method Enter() returns (entered: Option<(OutcomeRecord, bool)>, answer: Answer)
      requires At(Fresh)
      modifies this
      ensures At(match entered case None => Done(answer) case Some((record, created)) => Looping(record, created))
      ensures old(Calm()) && old(Recoverable(world, input)) ==>
        && entered.Some? && Calm() && RowIs(entered.value.0)
        && AgentsSteady(old(world).agents, world.agents, input.actionId)
    {
      hide Inv, Run, HasTask, HasFinished, TasksHealthy, BusyWith;
      if Recoverable(world, input) { JournaledRow(world, input); }
      answer := Raised;
      var contextId := ContextFor();
      if contextId.None? { return None, Raised; }
      var begun := Begin(contextId.value);
      if begun.None? { return None, Raised; }
      var record, created := begun.value.0, begun.value.1;
      if record.phase.Confirmed? { return None, Returned(record.receipt); }
      if record.phase.Incident? { return None, UnresolvedAnswer(record); }
      if record.binding.messageId.None? || record.binding.contextId.None? {
        answer := GiveUp(record, "a2a-correlation-missing", "");
        return None, answer;
      }
      if record.taskId.None? && !created && input.mode.Opaque? {
        answer := GiveUp(record, "opaque-effect-unknown", "");
        return None, answer;
      }
      return begun, Raised;
    }

    /** `_invoke_async`. In a deployment that started empty, a returned receipt is the confirmed row's and true; and
        where completed Tasks are not worked again, it holds the text of the action's Task as that now stands. */
    method InvokeAsync(turns: seq<Turn>) returns (answer: Answer)
      requires At(Fresh)
      modifies this
      ensures At(Done(answer))
      ensures old(Calm() && Recoverable(world, input)) ==>
        GoesThrough(turns, old(TaskSeen(world.agents, input.actionId))) ==>
        Recovered(answer)
      ensures answer.Returned? ==>
        forall idempotent, before :: StartsAfter(idempotent, before) ==> ReturnsTheTruth(answer, idempotent, before)
    {
      hide Inv, Run, ReturnsTheTruth, Calm, Recovered, Recoverable, GoesThrough;
      answer := Drive(turns);
      forall idempotent, before | StartsAfter(idempotent, before) && answer.Returned?
        ensures ReturnsTheTruth(answer, idempotent, before)
      {
        WhatIsReturned(this, answer, idempotent, before);
      }
    }

    /** The attempt started in the world that these events had led to. */
    ghost predicate StartsAfter(idempotent: set<string>, before: seq<Event>) {
      start == Run(AsWritten, Initial(idempotent), before)
    }

    ghost predicate ReturnsTheTruth(answer: Answer, idempotent: set<string>, before: seq<Event>)
      reads this
    {
      && input.actionId in world.journal.rows
      && var row := world.journal.rows[input.actionId];
         && row.phase.Confirmed? && answer == Returned(row.receipt)
         && ReceiptTrue(AsWritten, idempotent, before + trace, input.actionId, row)
         && (CompletedTasksLast(AsWritten, idempotent, before + trace) ==> ReceiptOf(world.agents, input.actionId, row))
    }

    /** adapter.py:134-224 and the handler, from the first read of the row to the returned result. */
    method Drive(turns: seq<Turn>) returns (answer: Answer)
      requires At(Fresh)
      modifies this
      ensures At(Done(answer))
      ensures old(Calm() && Recoverable(world, input)) ==>
        GoesThrough(turns, old(TaskSeen(world.agents, input.actionId))) ==>
        Recovered(answer)
    {
      hide Inv, Run, SnapshotFits, TasksHealthy, TaskOf, BusyWith, HasTask, HasFinished, TaskAfter, Peaceful, Recovered;
      ghost var seen := TaskSeen(world.agents, input.actionId);
      ghost var recovering := Calm() && Recoverable(world, input) && GoesThrough(turns, seen);
      var entered, result := Enter();
      if entered.None? { return result; }
      var record, created := entered.value.0, entered.value.1;
      var i := 0;
      while i < |turns|
        invariant 0 <= i <= |turns|
        invariant At(Looping(record, created))
        invariant recovering ==>
          Calm() && RowIs(record) && AtLeast(world.agents, input.actionId, TaskAfterTurns(seen, turns, i))
        invariant recovering ==> forall k :: 0 <= k < i ==> !RecoversAt(turns, seen, k)
      {
        var turn := turns[i];
        ghost var before := TaskAfterTurns(seen, turns, i);
        i := i + 1;
        assert TaskAfterTurns(seen, turns, i) == TaskAfter(before, turn);
        if turn.pin.PinUncertain? {
          ghost var g := world.agents;
          SteadyHere(g, input.actionId);
          TaskProgresses(turn.progress, Looping(record, created));
          if recovering { Tracked(g, g, world.agents, input.actionId, before, turn); }
          continue;
        }
        if turn.pin.PinFails? || !Honest(world.agents, input) {
          answer := Reject(record, created, PinFailed(a), "pinned-agent-verification-failed", turn.at);
          return;
        }
        if turn.pin.PinLacksCapability? {
          answer := Reject(record, created, CapabilityMissing(a), "pinned-agent-capability-mismatch", turn.at);
          return;
        }
        var ended, last, polling;
        ended, last, record, polling := Contact(record, created, turn, before);
        if ended { return last; }
        created := false;
        if !polling { continue; }
        ghost var seenNow := world.agents;
        var over;
        over, result := Observe(record, turn);
        if over { return result; }
        if recovering { StillTracked(seenNow, world.agents, input.actionId, TaskAfterTurns(seen, turns, i)); }
      }
      answer := Pending;
      Advance(Deadline(a), SetPc(world, a, Done(Pending)), Looping(record, created), Done(Pending));
    }

    /** adapter.py:153-163: a pin that does not verify, or an agent without the capability. */
    method Reject(record: OutcomeRecord, created: bool, ghost e: Event, reason: string, at: string)
      returns (answer: Answer)
      requires At(Looping(record, created))
      requires
        || (e == PinFailed(a) && reason == "pinned-agent-verification-failed")
        || (e == CapabilityMissing(a) && reason == "pinned-agent-capability-mismatch" && Honest(world.agents, input))
      modifies this
      ensures At(Done(answer))
    {
      hide Inv, Run;
      Others(Looping(record, created), false);
      var next := PutOrRaise(TaskIncident(record, reason), Finishing);
      Advance(e, SetPc(world, a, next), Looping(record, created), next);
      answer := GiveUp(record, reason, at);
    }
  }

  /** Finishing a completed Task of the row makes the receipt of its text. */
  lemma CompletionTells(w: World, id: string, record: OutcomeRecord, task: Snapshot, at: string)
    requires Inv(w) && id in w.journal.rows && w.journal.rows[id] == record && Completes(record, task)
    ensures var pc := Finish(record, task, at); pc.Putting? && TellsText(pc.next, task)
  {
    hide AsyncStep, RowOk, PacketOk, TaskOk, AcceptedOk, OneSender, OneMessage, JournaledTaskOk, AttemptOk, Finish,
      TellsText;
    assert Chain(id, w.journal.history[id], record);
    assert Version(id, record.binding, 0, w.journal.history[id][0]);
    FinishSettles(record, task, at);
    HealthySettles(Finish(record, task, at).next, task);
  }

  lemma HealthySettles(next: OutcomeRecord, task: Snapshot)
    requires Settles(next, task) && Healthy(task.state, task.artifacts) && task.state.TaskCompleted?
    ensures TellsText(next, task)
  {
    assert |task.artifacts[0]| == 1 && task.artifacts[0] != [];
  }

  /** What a returned receipt says, whatever happened before the attempt and around it. */
  lemma WhatIsReturned(h: Host, answer: Answer, idempotent: set<string>, before: seq<Event>)
    requires h.At(Done(answer)) && answer.Returned? && h.StartsAfter(idempotent, before)
    ensures h.ReturnsTheTruth(answer, idempotent, before)
  {
    hide Inv, Run, ReceiptTrue, CompletedTasksLast, ReceiptOf;
    RunConcat(AsWritten, Initial(idempotent), before, h.trace);
    AnswersAreTrue(AsWritten, idempotent, before + h.trace, h.a);
    if CompletedTasksLast(AsWritten, idempotent, before + h.trace) {
      ReceiptIsTheTasks(AsWritten, idempotent, before + h.trace, h.input.actionId);
    }
  }
}
