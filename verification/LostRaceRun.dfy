/** A run without faults in which the code as written turns a lost race into an incident. */
module LostRaceRun {
  import opened Prelude
  import opened Outcome
  import opened Dispatch
  import opened DispatchInvariant
  import opened DispatchTheorems
  import opened LostRace

  const ACTION := Input("action", "run", "digest", Participating, "parts", "agent")
  const REPORT: seq<Artifact> := [[TextPart("report")]]

  /** The row both attempts begin with, the two ways to advance it, and the incident the loser builds. */
  function FirstRow(): OutcomeRecord {
    OutcomeRecord(Binding("action", "run", "digest", Participating, A2A, None, None, 3, Some(PayloadSha256("parts")),
                          Some("agent"), Some("m1"), Some("c1")), Submitted, 0, None, None, None, 0, None)
  }

  function WinnerRow(): OutcomeRecord {
    OutcomeRecord(FirstRow().binding, Working, 0, None, None, Some("task"), 1, Some(Submitted))
  }

  function LoserRow(): OutcomeRecord { AsIncident(WinnerRow(), "async-send-binding-inconsistent") }

  /** An attempt begins and sends, up to waiting for its reply. */
  function Begin(a: nat, context: string, message: string): seq<Event> {
    [Start(a, ACTION), BindContext(a, context), Insert(a, message), ReadBack(a), Verified(a)]
  }

  lemma RunFive(v: Variant, w: World, e0: Event, e1: Event, e2: Event, e3: Event, e4: Event)
    ensures Run(v, w, [e0, e1, e2, e3, e4]) == Step(v, Step(v, Step(v, Step(v, Step(v, w, e0), e1), e2), e3), e4)
  {
    hide Step;
    assert [] + [e0] == [e0] && [e0] + [e1] == [e0, e1] && [e0, e1] + [e2] == [e0, e1, e2];
    assert [e0, e1, e2] + [e3] == [e0, e1, e2, e3] && [e0, e1, e2, e3] + [e4] == [e0, e1, e2, e3, e4];
    RunSnoc(v, w, [], e0);
    RunSnoc(v, w, [e0], e1);
    RunSnoc(v, w, [e0, e1], e2);
    RunSnoc(v, w, [e0, e1, e2], e3);
    RunSnoc(v, w, [e0, e1, e2, e3], e4);
  }

  lemma InsertRuns(w: World, a: nat, context: string, message: string) returns (w': World)
    requires a !in w.attempts && "agent" in w.agents.idempotent
    requires context !in w.used && context != "" && message !in w.used && message != "" && message != context
    requires if "action" in w.journal.rows
      then FirstRowIn(w.journal) && ("run", "agent") in w.journal.contexts
      else message == "m1" && context == "c1" && ("run", "agent") !in w.journal.contexts
    ensures w' == Step(AsWritten, Step(AsWritten, Step(AsWritten, w, Start(a, ACTION)), BindContext(a, context)),
      Insert(a, message))
    ensures FirstRowIn(w'.journal) && ("run", "agent") in w'.journal.contexts
    ensures w'.agents == w.agents && w'.used == w.used + {context, message} && w'.net == w.net
    ensures a in w'.attempts && w'.attempts[a].input == ACTION && w'.attempts[a].pc.Inserted?
    ensures w'.attempts == w.attempts[a := w'.attempts[a]]
    ensures "action" in w.journal.rows ==> w'.journal.rows == w.journal.rows
  {
    var w1 := Step(AsWritten, w, Start(a, ACTION));
    var w2 := Step(AsWritten, w1, BindContext(a, context));
    assert w2.attempts[a].pc == Contexted(w2.journal.contexts[("run", "agent")]);
    w' := Step(AsWritten, w2, Insert(a, message));
  }

  /** Both attempts, whoever inserted the row, end up waiting on a send of the same record. */
  lemma BeginRuns(w: World, a: nat, context: string, message: string) returns (w': World)
    requires a !in w.attempts && "agent" in w.agents.idempotent
    requires context !in w.used && context != "" && message !in w.used && message != "" && message != context
    requires if "action" in w.journal.rows
      then FirstRowIn(w.journal) && ("run", "agent") in w.journal.contexts
      else message == "m1" && context == "c1" && ("run", "agent") !in w.journal.contexts
    ensures w' == Run(AsWritten, w, Begin(a, context, message))
    ensures FirstRowIn(w'.journal) && ("run", "agent") in w'.journal.contexts
    ensures w'.agents == w.agents && w'.used == w.used + {context, message}
    ensures w'.net.next == w.net.next + 1 && w'.net.replies == w.net.replies
    ensures w'.net.inflight == w.net.inflight[w.net.next := SendMessage("action", "agent", "m1", "c1", "parts")]
    ensures a in w'.attempts && Waiting(w'.attempts[a], w.net.next)
    ensures w'.attempts == w.attempts[a := w'.attempts[a]]
  {
    hide Run, BindContextStep, InsertStep, PayloadSha256;
    var w3 := InsertRuns(w, a, context, message);
    var w4 := Step(AsWritten, w3, ReadBack(a));
    assert w4.attempts[a].pc == Looping(FirstRow(), w3.attempts[a].pc.created);
    w' := Step(AsWritten, w4, Verified(a));
    RunFive(AsWritten, w, Start(a, ACTION), BindContext(a, context), Insert(a, message), ReadBack(a), Verified(a));
  }

  predicate FirstRowIn(j: Journal) {
    "action" in j.rows && j.rows["action"] == FirstRow() && "action" in j.history
  }

  predicate Waiting(t: Attempt, n: nat) {
    t.input == ACTION && t.pc.AwaitSend? && t.pc.record == FirstRow() && t.pc.request == n
  }

  function Received(): After { TaskKnown(Snapshot("task", "c1", TaskWorking, [])) }

  /** Both sends reach the agent, which answers both with the one Task. */
  lemma DeliveriesRun(w: World) returns (w': World)
    requires w.agents == Agents(map[], map[], {"agent"}, false) && "task" !in w.used && "spare" !in w.used
    requires 0 in w.net.inflight && w.net.inflight[0] == SendMessage("action", "agent", "m1", "c1", "parts")
    requires 1 in w.net.inflight && w.net.inflight[1] == SendMessage("action", "agent", "m1", "c1", "parts")
    ensures w' == Step(AsWritten, Step(AsWritten, w, Deliver(0, "task")), Deliver(1, "spare"))
    ensures w'.journal == w.journal && w'.attempts == w.attempts
    ensures TaskOf(w'.agents, "action", "task")
    ensures 0 in w'.net.replies && w'.net.replies[0] == TaskReply(Received().task)
    ensures 1 in w'.net.replies && w'.net.replies[1] == TaskReply(Received().task)
  {
    assert "spare" != "task" by { assert |"spare"| != |"task"|; }
    var w1 := Step(AsWritten, w, Deliver(0, "task"));
    assert w1.net.replies[0] == TaskReply(Received().task);
    w' := Step(AsWritten, w1, Deliver(1, "spare"));
  }

  /** Both attempts build the same Working record; the first selects the row. */
  lemma AnswersRun(w: World) returns (w': World)
    requires 1 in w.attempts && 2 in w.attempts && Waiting(w.attempts[1], 0) && Waiting(w.attempts[2], 1)
    requires FirstRowIn(w.journal)
    requires w.agents == Agents(map[], map[], {"agent"}, false) && "task" !in w.used && "spare" !in w.used
    requires 0 in w.net.inflight && w.net.inflight[0] == SendMessage("action", "agent", "m1", "c1", "parts")
    requires 1 in w.net.inflight && w.net.inflight[1] == SendMessage("action", "agent", "m1", "c1", "parts")
    ensures w'
      == Run(AsWritten, w, [Deliver(0, "task"), Deliver(1, "spare"), Receive(1, ""), Receive(2, ""), PutSelect(1)])
    ensures w'.journal == w.journal && 1 in w'.attempts && 2 in w'.attempts && TaskOf(w'.agents, "action", "task")
    ensures w'.attempts[1] == Attempt(ACTION, Swapping(WinnerRow(), FirstRow(), Received()))
    ensures w'.attempts[2] == Attempt(ACTION, Putting(WinnerRow(), Received()))
  {
    hide Run, PayloadSha256, Serve;
    var w2 := DeliveriesRun(w);
    var w3 := Step(AsWritten, w2, Receive(1, ""));
    assert w3.attempts[1].pc == Putting(WinnerRow(), Received());
    var w4 := Step(AsWritten, w3, Receive(2, ""));
    assert w4.attempts[2].pc == Putting(WinnerRow(), Received());
    w' := Step(AsWritten, w4, PutSelect(1));
    RunFive(AsWritten, w, Deliver(0, "task"), Deliver(1, "spare"), Receive(1, ""), Receive(2, ""), PutSelect(1));
  }

  /** The winner commits; the loser's put of the same record is refused and becomes an incident. */
  lemma WinnerCommits(w: World) returns (w': World)
    requires 1 in w.attempts && 2 in w.attempts && FirstRowIn(w.journal)
    requires w.attempts[1]
      == Attempt(ACTION, Swapping(WinnerRow(), FirstRow(), TaskKnown(Snapshot("task", "c1", TaskWorking, []))))
    requires w.attempts[2] == Attempt(ACTION, Putting(WinnerRow(), Received()))
    ensures w' == Step(AsWritten, Step(AsWritten, w, PutUpdate(1, "")), PutSelect(2))
    ensures 2 in w'.attempts && w'.attempts[2] == Attempt(ACTION, Putting(LoserRow(), Finishing))
    ensures "action" in w'.journal.rows && "action" in w'.journal.history && w'.journal.rows["action"] == WinnerRow()
    ensures w'.agents == w.agents
  {
    hide PayloadSha256;
    var w1 := Step(AsWritten, w, PutUpdate(1, ""));
    assert w1.journal.rows["action"] == WinnerRow() && w1.attempts[2] == w.attempts[2];
    w' := Step(AsWritten, w1, PutSelect(2));
  }

  /** The incident follows the winner's row, so it is accepted. */
  lemma LoserCommits(w: World) returns (w': World)
    requires 2 in w.attempts && w.attempts[2] == Attempt(ACTION, Putting(LoserRow(), Finishing))
    requires "action" in w.journal.rows && "action" in w.journal.history && w.journal.rows["action"] == WinnerRow()
    ensures w' == Step(AsWritten, Step(AsWritten, w, PutSelect(2)), PutUpdate(2, ""))
    ensures "action" in w'.journal.rows && w'.journal.rows["action"] == LoserRow() && w'.agents == w.agents
    ensures 2 in w'.attempts && w'.attempts[2].pc == Done(UnresolvedAnswer(LoserRow()))
  {
    hide PayloadSha256;
    var w1 := Step(AsWritten, w, PutSelect(2));
    assert w1.attempts[2].pc == Swapping(LoserRow(), WinnerRow(), Finishing);
    w' := Step(AsWritten, w1, PutUpdate(2, ""));
  }

  /** The first attempt commits; the second is overtaken, and its incident is admitted over the winner's row. */
  lemma OvertakingRuns(w: World) returns (w': World)
    requires 1 in w.attempts && 2 in w.attempts && TaskOf(w.agents, "action", "task")
    requires w.attempts[1]
      == Attempt(ACTION, Swapping(WinnerRow(), FirstRow(), TaskKnown(Snapshot("task", "c1", TaskWorking, []))))
    requires w.attempts[2] == Attempt(ACTION, Putting(WinnerRow(), Received()))
    requires FirstRowIn(w.journal)
    ensures w' == Run(AsWritten, w,
      [PutUpdate(1, ""), PutSelect(2), PutSelect(2), PutUpdate(2, ""), Progress("task", TaskCompleted, REPORT)])
    ensures "action" in w'.journal.rows && w'.journal.rows["action"] == LoserRow()
    ensures 2 in w'.attempts && w'.attempts[2].pc == Done(UnresolvedAnswer(LoserRow()))
    ensures TaskOf(w'.agents, "action", "task") && w'.agents.tasks["task"].state.TaskCompleted?
    ensures w'.agents.tasks["task"].artifacts == REPORT
  {
    hide Run, PayloadSha256, PutSelectStep, PutUpdateStep, FirstRowIn, WinnerRow, LoserRow, FirstRow;
    var w2 := WinnerCommits(w);
    var w4 := LoserCommits(w2);
    w' := Step(AsWritten, w4, Progress("task", TaskCompleted, REPORT));
    RunFive(AsWritten, w, PutUpdate(1, ""), PutSelect(2), PutSelect(2), PutUpdate(2, ""),
      Progress("task", TaskCompleted, REPORT));
  }

  lemma DistinctIds()
    ensures "c1" != "m1" && "c2" !in {"c1", "m1"} && "m2" !in {"c1", "m1"} && "m2" != "c2" && |"c1"| == 2
    ensures "task" !in {"c1", "m1"} + {"c2", "m2"} && "spare" !in {"c1", "m1"} + {"c2", "m2"}
  {
    assert "c1"[0] != "m1"[0] && "c2"[1] != "c1"[1] && "c2"[0] != "m1"[0];
    assert "m2"[0] != "c1"[0] && "m2"[1] != "m1"[1] && "m2"[0] != "c2"[0];
    assert forall x :: x in {"c1", "m1"} + {"c2", "m2"} ==> |x| == 2;
  }

  /** As written, a run without any fault can end an action in an incident, returned to the caller as
      unresolved, although the one Task at the agent completes with a valid artifact. */
  lemma LostRaceCanLoseTheTask() returns (events: seq<Event>)
    ensures forall e :: e in events ==> FaultFree(e)
    ensures var w := Run(AsWritten, Initial({"agent"}), events);
      && "action" in w.journal.rows && w.journal.rows["action"].phase.Incident?
      && w.journal.rows["action"].taskId == Some("task")
      && 2 in w.attempts && w.attempts[2].pc == Done(UnresolvedAnswer(w.journal.rows["action"]))
      && TaskOf(w.agents, "action", "task")
      && w.agents.tasks["task"].state.TaskCompleted? && Healthy(TaskCompleted, w.agents.tasks["task"].artifacts)
  {
    hide Run, Step, PayloadSha256;
    var w0 := Initial({"agent"});
    var w1 := BeginRuns(w0, 1, "c1", "m1");
    DistinctIds();
    assert w1.used == {"c1", "m1"};
    var w2 := BeginRuns(w1, 2, "c2", "m2");
    var w3 := AnswersRun(w2);
    var w4 := OvertakingRuns(w3);
    var answers := [Deliver(0, "task"), Deliver(1, "spare"), Receive(1, ""), Receive(2, ""), PutSelect(1)];
    var overtaking := [PutUpdate(1, ""), PutSelect(2), PutSelect(2), PutUpdate(2, ""),
      Progress("task", TaskCompleted, REPORT)];
    events := ((Begin(1, "c1", "m1") + Begin(2, "c2", "m2")) + answers) + overtaking;
    RunConcat(AsWritten, w0, Begin(1, "c1", "m1"), Begin(2, "c2", "m2"));
    RunConcat(AsWritten, w0, Begin(1, "c1", "m1") + Begin(2, "c2", "m2"), answers);
    RunConcat(AsWritten, w0, (Begin(1, "c1", "m1") + Begin(2, "c2", "m2")) + answers, overtaking);
  }
}
