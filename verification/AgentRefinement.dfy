/** The agents of the dispatch model are those the repository ships: what Dispatch says of a Message and of a Task's
    progress is what the ledger of prototype/temporal-factory/services/model_agent.py and the opaque release receiver
    of services/release_server.py do, seen from outside. */
module AgentRefinement {
  import opened Prelude
  import Dispatch
  import AgentLedger
  import ReleaseReceiver

  // The model agent.

  /** The content the ledger fingerprints. */
  function ContentOf(contextId: string, parts: string): AgentLedger.Content {
    AgentLedger.Content(parts, "", Some(contextId), "")
  }

  function StateOf(row: AgentLedger.TaskRow): Dispatch.TaskState {
    match row.state
    case Working => Dispatch.TaskWorking
    case Completed => Dispatch.TaskCompleted
    case Failed => Dispatch.TaskEnded
  }

  function ArtifactsOf(row: AgentLedger.TaskRow): seq<Dispatch.Artifact> {
    if row.artifact.Some? then [[Dispatch.TextPart(row.artifact.value.content)]] else []
  }

  ghost predicate Shows(task: Dispatch.TaskRow, agent: string, row: AgentLedger.TaskRow) {
    && task.identity == agent && task.messageId == row.messageId && task.contextId == row.contextId
    && row.fingerprint == ContentOf(task.contextId, task.parts)
    && task.state == StateOf(row) && task.artifacts == ArtifactsOf(row)
  }

  ghost predicate Pictured(g: Dispatch.Agents, agent: string, row: AgentLedger.TaskRow) {
    && row.taskId in g.tasks && Shows(g.tasks[row.taskId], agent, row)
    && (agent, row.messageId) in g.accepted && g.accepted[(agent, row.messageId)] == row.taskId
  }

  ghost predicate HasTask(l: AgentLedger.Ledger, taskId: string) {
    exists k :: 0 <= k < |l.tasks| && l.tasks[k].taskId == taskId
  }

  ghost predicate HasMessage(l: AgentLedger.Ledger, messageId: string) {
    exists k :: 0 <= k < |l.tasks| && l.tasks[k].messageId == messageId
  }

  /** What the dispatch model knows of a deduplicating agent is its ledger, Task by Task and messageId by messageId. */
  ghost predicate Pictures(g: Dispatch.Agents, agent: string, l: AgentLedger.Ledger) {
    && agent in g.idempotent
    && (forall k :: 0 <= k < |l.tasks| ==> Pictured(g, agent, l.tasks[k]))
    && (forall t :: t in g.tasks && g.tasks[t].identity == agent ==> HasTask(l, t))
    && (forall m :: (agent, m) in g.accepted ==> HasMessage(l, m))
  }

  function RequestOf(p: Dispatch.Packet): AgentLedger.Request
    requires p.SendMessage?
  {
    AgentLedger.Request(p.messageId, ContentOf(p.contextId, p.parts))
  }

  /** A Message the ledger knows: both answer with its Task, or both refuse it. */
  lemma KnownMessageRefines(g: Dispatch.Agents, agent: string, l: AgentLedger.Ledger, p: Dispatch.Packet, uuid: string,
      newContext: string)
    requires Pictures(g, agent, l) && p.SendMessage? && p.identity == agent
    requires AgentLedger.TaskOfMessage(l, p.messageId).Some?
    ensures Refines(g, agent, l, p, uuid, newContext)
  {
    var k := AgentLedger.TaskOfMessage(l, p.messageId).value;
    assert Pictured(g, agent, l.tasks[k]);
  }

  /** A new Message: both open the Task. */
  lemma NewMessageRefines(g: Dispatch.Agents, agent: string, l: AgentLedger.Ledger, p: Dispatch.Packet, uuid: string,
      newContext: string)
    requires Pictures(g, agent, l) && p.SendMessage? && p.identity == agent && p.contextId != "" && uuid !in g.tasks
    requires AgentLedger.TaskOfMessage(l, p.messageId).None?
    ensures Refines(g, agent, l, p, uuid, newContext)
  {
    hide Shows, Pictured;
    var g', l' := Dispatch.Handle(g, p, uuid).0, AgentLedger.Accept(l, RequestOf(p), uuid, newContext).1;
    NotTaken(g, agent, l, uuid);
    assert (agent, p.messageId) !in g.accepted;
    assert l'.tasks[|l.tasks|].taskId == uuid;
    NewIsPictured(g, g', agent, l, l', p, uuid);
  }

  lemma NotTaken(g: Dispatch.Agents, agent: string, l: AgentLedger.Ledger, uuid: string)
    requires Pictures(g, agent, l) && uuid !in g.tasks
    ensures AgentLedger.TaskAt(l, uuid).None?
  {
    forall k | 0 <= k < |l.tasks| ensures l.tasks[k].taskId != uuid { assert Pictured(g, agent, l.tasks[k]); }
  }

  lemma NewIsPictured(g: Dispatch.Agents, g': Dispatch.Agents, agent: string, l: AgentLedger.Ledger,
      l': AgentLedger.Ledger,
      p: Dispatch.Packet, uuid: string)
    requires Pictures(g, agent, l) && p.SendMessage? && p.identity == agent && uuid !in g.tasks
    requires AgentLedger.TaskOfMessage(l, p.messageId).None?
    requires g' == g.(
      tasks := g.tasks[uuid :=
        Dispatch.TaskRow(agent, p.action, p.messageId, p.contextId, p.parts, Dispatch.TaskWorking, [])],
      accepted := g.accepted[(agent, p.messageId) := uuid])
    requires l'.tasks == l.tasks + [AgentLedger.TaskRow(uuid, p.contextId, p.messageId, ContentOf(p.contextId, p.parts),
                                                        AgentLedger.Working, None)]
    ensures Pictures(g', agent, l')
  {
    hide Shows;
    var n := |l.tasks|;
    assert l'.tasks[n].taskId == uuid && l'.tasks[n].messageId == p.messageId;
    NewTaskShows(p, uuid);
    forall k | 0 <= k < |l'.tasks| ensures Pictured(g', agent, l'.tasks[k]) {
      if k < n { assert Pictured(g, agent, l.tasks[k]) && l.tasks[k].messageId != p.messageId; }
    }
    forall t | t in g'.tasks && g'.tasks[t].identity == agent ensures HasTask(l', t) {
      if t != uuid { TaskRemains(l, l', t); }
    }
    forall m | (agent, m) in g'.accepted ensures HasMessage(l', m) {
      if m != p.messageId { MessageRemains(l, l', m); }
    }
  }

  lemma NewTaskShows(p: Dispatch.Packet, uuid: string)
    requires p.SendMessage?
    ensures Shows(
      Dispatch.TaskRow(p.identity, p.action, p.messageId, p.contextId, p.parts, Dispatch.TaskWorking, []), p.identity,
      AgentLedger.TaskRow(uuid, p.contextId, p.messageId, ContentOf(p.contextId, p.parts), AgentLedger.Working, None))
  {
  }

  lemma TaskRemains(l: AgentLedger.Ledger, l': AgentLedger.Ledger, t: string)
    requires HasTask(l, t) && |l.tasks| <= |l'.tasks| && forall k :: 0 <= k < |l.tasks| ==>
      l'.tasks[k].taskId == l.tasks[k].taskId
    ensures HasTask(l', t)
  {
    var k :| 0 <= k < |l.tasks| && l.tasks[k].taskId == t;
    assert l'.tasks[k].taskId == t;
  }

  lemma MessageRemains(l: AgentLedger.Ledger, l': AgentLedger.Ledger, m: string)
    requires HasMessage(l, m) && |l.tasks| <= |l'.tasks|
    requires forall k :: 0 <= k < |l.tasks| ==> l'.tasks[k].messageId == l.tasks[k].messageId
    ensures HasMessage(l', m)
  {
    var k :| 0 <= k < |l.tasks| && l.tasks[k].messageId == m;
    assert l'.tasks[k].messageId == m;
  }

  /** One Message, handled by the agent of the dispatch model and accepted by the ledger: the answers agree, a refusal
      is the conflict the dispatch model records, and the picture stays true. */
  ghost predicate Refines(g: Dispatch.Agents, agent: string, l: AgentLedger.Ledger, p: Dispatch.Packet, uuid: string,
      newContext: string)
    requires p.SendMessage?
  {
    var (g', reply) := Dispatch.Handle(g, p, uuid);
    var (result, l') := AgentLedger.Accept(l, RequestOf(p), uuid, newContext);
    && Pictures(g', agent, l')
    && (result.Failure? <==> reply == Dispatch.ErrorReply)
    && (result.Failure? ==> g' == g.(conflict := true) && l' == l)
    && (result.Success? ==>
          && reply.TaskReply? && reply.task.id == result.value.0 && HasTask(l', reply.task.id)
          && (result.value.1 <==> reply.task.id !in g.tasks))
  }

  /** A Message to the model agent: what the dispatch model lets it do and answer is what its ledger does. */
  lemma AcceptRefinesHandle(g: Dispatch.Agents, agent: string, l: AgentLedger.Ledger, p: Dispatch.Packet, uuid: string,
      newContext: string)
    requires Pictures(g, agent, l) && p.SendMessage? && p.identity == agent && p.contextId != "" && uuid !in g.tasks
    ensures Refines(g, agent, l, p, uuid, newContext)
  {
    hide Pictures, Refines;
    if AgentLedger.TaskOfMessage(l, p.messageId).Some? { KnownMessageRefines(g, agent, l, p, uuid, newContext); }
    else { NewMessageRefines(g, agent, l, p, uuid, newContext); }
  }

  /** The dispatch model's event that shows a Task as the ledger now holds it. */
  function Shown(row: AgentLedger.TaskRow): Dispatch.Event {
    Dispatch.Progress(row.taskId, StateOf(row), ArtifactsOf(row))
  }

  lemma ProgressOfTask(v: Dispatch.Variant, w: Dispatch.World, t: string, state: Dispatch.TaskState,
      artifacts: seq<Dispatch.Artifact>)
    requires t in w.agents.tasks
    ensures Dispatch.Step(v, w, Dispatch.Progress(t, state, artifacts)).agents
      == w.agents.(tasks := w.agents.tasks[t := w.agents.tasks[t].(state := state, artifacts := artifacts)])
  {
  }

  /** A Task settled in the ledger is progress of that Task in the dispatch model; a transaction that raises is none. */
  lemma FinishIsProgress(v: Dispatch.Variant, w: Dispatch.World, agent: string, l: AgentLedger.Ledger, taskId: string,
      artifact: Option<AgentLedger.Artifact>, stimulus: Option<AgentLedger.LogRow>)
    requires Pictures(w.agents, agent, l) && AgentLedger.TasksOk(l)
    ensures var (result, l') := AgentLedger.Finish(l, taskId, artifact, stimulus);
      && (result.Failure? ==> l' == l)
      && (result.Success? ==> exists k :: SettlesAt(v, w, agent, l', taskId, k))
  {
    hide AgentLedger.LogAfter, Pictures, SettlesAt;
    var (result, l') := AgentLedger.Finish(l, taskId, artifact, stimulus);
    if result.Success? {
      var k := AgentLedger.TaskAt(l, taskId).value;
      SettledIsPictured(v, w, agent, l, l', k);
    }
  }

  ghost predicate SettlesAt(v: Dispatch.Variant, w: Dispatch.World, agent: string, l: AgentLedger.Ledger,
      taskId: string, k: nat) {
    && k < |l.tasks| && l.tasks[k].taskId == taskId
    && Pictures(Dispatch.Step(v, w, Shown(l.tasks[k])).agents, agent, l)
  }

  lemma SettledIsPictured(v: Dispatch.Variant, w: Dispatch.World, agent: string, l: AgentLedger.Ledger,
      l': AgentLedger.Ledger, k: nat)
    requires Pictures(w.agents, agent, l) && AgentLedger.TasksOk(l) && k < |l.tasks| == |l'.tasks|
    requires l'.tasks == l.tasks[k := l'.tasks[k]]
    requires l'.tasks[k] == l.tasks[k].(state := l'.tasks[k].state, artifact := l'.tasks[k].artifact)
    ensures SettlesAt(v, w, agent, l', l.tasks[k].taskId, k)
  {
    hide AgentLedger.TasksOk, Dispatch.Step;
    var t := l.tasks[k].taskId;
    assert Pictured(w.agents, agent, l.tasks[k]);
    ProgressOfTask(v, w, t, StateOf(l'.tasks[k]), ArtifactsOf(l'.tasks[k]));
    ProgressIsPictured(w.agents, Dispatch.Step(v, w, Shown(l'.tasks[k])).agents, agent, l, l', k, l'.tasks[k]);
  }

  lemma ProgressIsPictured(g: Dispatch.Agents, g': Dispatch.Agents, agent: string, l: AgentLedger.Ledger,
      l': AgentLedger.Ledger, k: nat, row: AgentLedger.TaskRow)
    requires Pictures(g, agent, l) && AgentLedger.TasksOk(l) && k < |l.tasks| && l'.tasks == l.tasks[k := row]
    requires row == l.tasks[k].(state := row.state, artifact := row.artifact) && row.taskId in g.tasks
    requires g' == ShownIn(g, row)
    ensures Pictures(g', agent, l')
  {
    hide AgentLedger.TasksOk, Pictured, ShownIn;
    assert Pictured(g, agent, l.tasks[k]);
    ShownKeepsTasks(g, row);
    forall i | 0 <= i < |l'.tasks| ensures Pictured(g', agent, l'.tasks[i]) {
      assert Pictured(g, agent, l.tasks[i]);
      if i == k {
        ShownIsPictured(g, agent, l.tasks[k], row);
      } else {
        TasksApart(l, i, k);
        OthersPictured(g, agent, l.tasks[i], row);
      }
    }
    forall t | t in g'.tasks && g'.tasks[t].identity == agent ensures HasTask(l', t) { TaskRemains(l, l', t); }
    forall m | (agent, m) in g'.accepted ensures HasMessage(l', m) { MessageRemains(l, l', m); }
  }

  function ShownIn(g: Dispatch.Agents, row: AgentLedger.TaskRow): Dispatch.Agents
    requires row.taskId in g.tasks
  {
    g.(tasks := g.tasks[row.taskId := g.tasks[row.taskId].(state := StateOf(row), artifacts := ArtifactsOf(row))])
  }

  lemma ShownKeepsTasks(g: Dispatch.Agents, row: AgentLedger.TaskRow)
    requires row.taskId in g.tasks
    ensures var g' := ShownIn(g, row);
      && g'.accepted == g.accepted && g'.idempotent == g.idempotent
      && forall t :: t in g'.tasks ==> t in g.tasks && g'.tasks[t].identity == g.tasks[t].identity
  {
  }

  lemma ShownIsPictured(g: Dispatch.Agents, agent: string, row: AgentLedger.TaskRow, row': AgentLedger.TaskRow)
    requires Pictured(g, agent, row) && row' == row.(state := row'.state, artifact := row'.artifact)
    ensures Pictured(ShownIn(g, row'), agent, row')
  {
    hide StateOf, ArtifactsOf;
  }

  lemma OthersPictured(g: Dispatch.Agents, agent: string, other: AgentLedger.TaskRow, row: AgentLedger.TaskRow)
    requires Pictured(g, agent, other) && row.taskId in g.tasks && row.taskId != other.taskId
    ensures Pictured(ShownIn(g, row), agent, other)
  {
    hide Shows;
  }

  lemma TasksApart(l: AgentLedger.Ledger, i: nat, k: nat)
    requires AgentLedger.TasksOk(l) && i < |l.tasks| && k < |l.tasks| && i != k
    ensures l.tasks[i].taskId != l.tasks[k].taskId
  {
    assert AgentLedger.Apart(l.tasks[if i < k then i else k], l.tasks[if i < k then k else i]);
  }

  /** Calls to the model and armed stimuli do not show. */
  lemma WorkDoesNotShow(g: Dispatch.Agents, agent: string, l: AgentLedger.Ledger, op: AgentLedger.Op)
    requires Pictures(g, agent, l) && !op.Accepting? && !op.Finishing?
    ensures Pictures(g, agent, AgentLedger.Apply(l, op))
  {
    var l' := AgentLedger.Apply(l, op);
    assert l'.tasks == l.tasks;
    forall k | 0 <= k < |l'.tasks| ensures Pictured(g, agent, l'.tasks[k]) { assert Pictured(g, agent, l.tasks[k]); }
  }

  // The opaque release receiver.

  function Settled(row: ReleaseReceiver.Row): Dispatch.TaskState {
    if row.outcome.Completed? then Dispatch.TaskCompleted else Dispatch.TaskEnded
  }

  ghost predicate Booked(g: Dispatch.Agents, agent: string, row: ReleaseReceiver.Row) {
    && row.taskId in g.tasks && g.tasks[row.taskId].identity == agent && g.tasks[row.taskId].contextId == row.contextId
    && g.tasks[row.taskId].state == Settled(row)
  }

  ghost predicate HasRow(rows: seq<ReleaseReceiver.Row>, taskId: string) {
    exists k :: 0 <= k < |rows| && rows[k].taskId == taskId
  }

  /** What the dispatch model knows of an agent that does not deduplicate is its deliveries, one Task each. */
  ghost predicate Books(g: Dispatch.Agents, agent: string, rows: seq<ReleaseReceiver.Row>) {
    && agent !in g.idempotent
    && (forall k :: 0 <= k < |rows| ==> Booked(g, agent, rows[k]))
    && (forall t :: t in g.tasks && g.tasks[t].identity == agent ==> HasRow(rows, t))
  }

  /** A Message to the opaque receiver is always a new Task, settled at once: a delivery is the Message handled, then
      the Task's progress. */
  lemma DeliverRefinesHandle(v: Dispatch.Variant, w: Dispatch.World, agent: string, rows: seq<ReleaseReceiver.Row>,
      m: ReleaseReceiver.Message, ids: ReleaseReceiver.Uuids, p: Dispatch.Packet, artifacts: seq<Dispatch.Artifact>)
    requires Books(w.agents, agent, rows) && p.SendMessage? && p.identity == agent
    requires m.taskId == "" && m.messageId == p.messageId != "" && m.contextId == p.contextId != ""
    requires ids.taskId !in w.agents.tasks
    ensures var (g', reply) := Dispatch.Handle(w.agents, p, ids.taskId);
      var (result, rows') := ReleaseReceiver.Deliver(ReleaseReceiver.Mode.Opaque, rows, m, ids);
      && result.Success? && reply.TaskReply? && reply.task.id == result.value.taskId
      && reply.task.contextId == result.value.contextId && |rows'| == |rows| + 1
      && var after := Dispatch.Step(v, w.(agents := g'),
        Dispatch.Progress(ids.taskId, Settled(result.value), artifacts));
         Books(after.agents, agent, rows')
  {
    var (g', reply) := Dispatch.Handle(w.agents, p, ids.taskId);
    var (result, rows') := ReleaseReceiver.Deliver(ReleaseReceiver.Mode.Opaque, rows, m, ids);
    var after := Dispatch.Step(v, w.(agents := g'), Dispatch.Progress(ids.taskId, Settled(result.value), artifacts));
    hide Dispatch.Step;
    ProgressOfTask(v, w.(agents := g'), ids.taskId, Settled(result.value), artifacts);
    NewIsBooked(w.agents, after.agents, agent, rows, rows', ids.taskId);
  }

  lemma NewIsBooked(g: Dispatch.Agents, g': Dispatch.Agents, agent: string, rows: seq<ReleaseReceiver.Row>,
      rows': seq<ReleaseReceiver.Row>, taskId: string)
    requires Books(g, agent, rows) && taskId !in g.tasks && g'.idempotent == g.idempotent
    requires |rows'| == |rows| + 1 && rows <= rows' && rows'[|rows|].taskId == taskId
    requires Booked(g', agent, rows'[|rows|])
    requires g'.tasks.Keys == g.tasks.Keys + {taskId} && forall t :: t in g.tasks ==> g'.tasks[t] == g.tasks[t]
    ensures Books(g', agent, rows')
  {
    forall k | 0 <= k < |rows'| ensures Booked(g', agent, rows'[k]) {
      if k < |rows| { assert Booked(g, agent, rows[k]) && rows'[k] == rows[k]; }
    }
    forall t | t in g'.tasks && g'.tasks[t].identity == agent ensures HasRow(rows', t) {
      if t != taskId { RowRemains(rows, rows', t); }
    }
  }

  lemma RowRemains(rows: seq<ReleaseReceiver.Row>, rows': seq<ReleaseReceiver.Row>, t: string)
    requires HasRow(rows, t) && rows <= rows'
    ensures HasRow(rows', t)
  {
    var k :| 0 <= k < |rows| && rows[k].taskId == t;
    assert rows'[k].taskId == t;
  }
}
