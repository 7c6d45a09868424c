/** What each kind of step does to each part of the dispatch invariant: the attempt's own place, the journal, the
    requests and replies, and the agents' Tasks. */
module DispatchSteps {
  import opened Prelude
  import opened Outcome
  import opened Dispatch
  import opened DispatchInvariant

  /** What an attempt may rely on about its own local record. */
  ghost predicate Ready(j: Journal, g: Agents, input: Input, r: OutcomeRecord) {
    && Held(j, input, r) && Open(r)
    && r.binding.actionId == input.actionId
    && r.binding.messageId.Some? && r.binding.contextId.Some?
    && (r.taskId.Some? ==> TaskOf(g, input.actionId, r.taskId.value))
  }

  lemma IncidentExtends(r: OutcomeRecord, reason: string)
    requires Open(r)
    ensures AsyncStep(r, AsIncident(r, reason)) && TaskIncident(r, reason) == Success(AsIncident(r, reason))
  {
  }

  /** Two Task starts of one version with one Task id are the same record. */
  lemma SameStart(prev: OutcomeRecord, x: OutcomeRecord, y: OutcomeRecord)
    requires AsyncStep(prev, x) && AsyncStep(prev, y) && Open(prev)
    requires x.phase.Working? && y.phase.Working? && x.taskId == y.taskId
    ensures x == y
  {
  }

  lemma PutFromReady(j: Journal, g: Agents, input: Input, r: OutcomeRecord, next: OutcomeRecord, after: After)
    requires Ready(j, g, input, r) && AsyncStep(r, next)
    requires next.taskId.Some? ==> TaskOf(g, input.actionId, next.taskId.value)
    requires AfterFits(input, next, after)
    ensures PutOk(j, g, input, next, after) && Extends(j, next)
  {
    AsyncStepFacts(r, next);
  }

  /** A committed open version of the attempt's own action is ready. */
  lemma HeldIsReady(j: Journal, g: Agents, input: Input, r: OutcomeRecord)
    requires ChainsOk(j) && JournaledTasksOk(j, g)
    requires Held(j, input, r) && Open(r)
    ensures Ready(j, g, input, r)
  {
    var h := j.history[input.actionId];
    assert Chain(input.actionId, h, j.rows[input.actionId]);
    assert Version(input.actionId, j.rows[input.actionId].binding, r.sequence, h[r.sequence]);
    assert JournaledTaskOk(g, input.actionId, h[r.sequence]);
  }

  /** The current row is held by every attempt whose arguments match its binding. */
  lemma RowIsHeld(j: Journal, input: Input)
    requires ChainsOk(j) && input.actionId in j.rows && SameBinding(j.rows[input.actionId].binding, input)
    ensures var r := j.rows[input.actionId];
      Held(j, input, r) && Shaped(r) && r.binding.messageId.Some? && r.binding.contextId.Some?
  {
    var h := j.history[input.actionId];
    assert Chain(input.actionId, h, j.rows[input.actionId]);
    assert Version(input.actionId, j.rows[input.actionId].binding, |h| - 1, h[|h| - 1]);
  }

  lemma IncidentIsOk(j: Journal, net: Network, g: Agents, input: Input, r: OutcomeRecord, reason: string)
    requires Ready(j, g, input, r)
    ensures AttemptOk(j, net, g, Attempt(input, PutOrRaise(TaskIncident(r, reason), Finishing)))
  {
    IncidentExtends(r, reason);
    PutFromReady(j, g, input, r, AsIncident(r, reason), Finishing);
  }

  lemma DecideIsOk(j: Journal, net: Network, g: Agents, input: Input, created: bool)
    requires ChainsOk(j) && JournaledTasksOk(j, g)
    requires input.actionId in j.rows && SameBinding(j.rows[input.actionId].binding, input)
    ensures AttemptOk(j, net, g, Attempt(input, Decide(input, j.rows[input.actionId], created)))
  {
    hide Chain, AsyncStep, RowOk, PacketOk, TaskOk, AcceptedOk, OneSender, OneMessage, JournaledTaskOk;
    var r := j.rows[input.actionId];
    RowIsHeld(j, input);
    if !r.Terminal() {
      HeldIsReady(j, g, input, r);
      IncidentIsOk(j, net, g, input, r, "opaque-effect-unknown");
    }
  }

  lemma FinishIsOk(j: Journal, net: Network, g: Agents, input: Input, r: OutcomeRecord, task: Snapshot, at: string)
    requires Ready(j, g, input, r) && r.phase.Working?
    ensures AttemptOk(j, net, g, Attempt(input, Finish(r, task, at)))
  {
    match CompletedReceipt(task, r, at) {
      case Failure(reason) => IncidentIsOk(j, net, g, input, r, reason);
      case Success(receipt) =>
        IncidentIsOk(j, net, g, input, r, "reply-binding-inconsistent");
        IncidentExtends(r, "reply-binding-inconsistent");
        var next := TaskFinished(r, receipt).value;
        if next.phase.Confirmed? { PutFromReady(j, g, input, r, next, Finishing); }
    }
  }

  lemma AfterSendIsOk(j: Journal, net: Network, g: Agents, input: Input, r: OutcomeRecord, reply: Reply)
    requires Ready(j, g, input, r) && r.taskId.None?
    requires reply.TaskReply? ==> TaskOf(g, input.actionId, reply.task.id)
    ensures AttemptOk(j, net, g, Attempt(input, AfterSend(r, reply)))
  {
    if reply.TaskReply? && ValidateAsyncTask(reply.task, r.binding.contextId, None).Some? {
      PutFromReady(j, g, input, r, TaskStarted(r, Str(reply.task.id)).value, TaskKnown(reply.task));
    } else {
      IncidentIsOk(j, net, g, input, r, "async-send-binding-inconsistent");
    }
  }

  lemma AfterUncertainSendIsOk(j: Journal, net: Network, g: Agents, input: Input, r: OutcomeRecord)
    requires Ready(j, g, input, r) && r.taskId.None?
    ensures AttemptOk(j, net, g, Attempt(input, AfterUncertainSend(input, r)))
  {
    if r.phase.Submitted? {
      PutFromReady(j, g, input, r, SendAmbiguous(r).value, if input.mode.Opaque? then OpaqueUnknown else Resume);
    } else {
      IncidentIsOk(j, net, g, input, r, "opaque-effect-unknown");
    }
  }

  lemma AfterGetIsOk(j: Journal, net: Network, g: Agents, input: Input, r: OutcomeRecord, reply: Reply, at: string)
    requires Ready(j, g, input, r) && r.phase.Working?
    ensures AttemptOk(j, net, g, Attempt(input, AfterGet(r, reply, at)))
  {
    if reply.TaskReply? && ValidateAsyncTask(reply.task, r.binding.contextId, r.taskId) == Some(TaskCompleted) {
      FinishIsOk(j, net, g, input, r, reply.task, at);
    } else {
      IncidentIsOk(j, net, g, input, r, "async-task-terminal-without-artifact");
      IncidentIsOk(j, net, g, input, r, "async-task-binding-inconsistent");
    }
  }

  /** A record that extends the newest version is admitted; so a put that goes stale was overtaken. */
  lemma StaleMeansOvertaken(id: string, h: seq<OutcomeRecord>, row: OutcomeRecord, next: OutcomeRecord)
    requires Chain(id, h, row) && 1 <= next.sequence <= |h| && AsyncStep(h[next.sequence - 1], next)
    ensures next.sequence == |h| ==> Admissible(row, next) && row == h[next.sequence - 1]
  {
    assert Version(id, row.binding, next.sequence - 1, h[next.sequence - 1]);
    AsyncStepFacts(h[next.sequence - 1], next);
  }

  /** The version that overtook a Task start: the same record, or one that is not Working. */
  lemma OvertakenBy(id: string, h: seq<OutcomeRecord>, row: OutcomeRecord, next: OutcomeRecord)
    requires Chain(id, h, row) && 1 <= next.sequence < |h| && AsyncStep(h[next.sequence - 1], next)
    requires next.phase.Working?
    requires h[next.sequence].taskId.Some? ==> h[next.sequence].taskId == next.taskId
    ensures Open(next) && next.binding == h[next.sequence].binding
    ensures h[next.sequence].phase.Working? ==> h[next.sequence] == next
  {
    var k := next.sequence;
    assert Version(id, row.binding, k - 1, h[k - 1]) && Version(id, row.binding, k, h[k]);
    AsyncStepFacts(h[k - 1], next);
    if h[k].phase.Working? { SameStart(h[k - 1], h[k], next); }
  }

  /** The loser of a race over a Task id builds its incident on an uncommitted record. Either that record
      equals the one that was committed, because there is only one Task, or the incident is refused. */
  lemma OvertakenIncidentIsOk(w: World, input: Input, next: OutcomeRecord, after: After)
    requires Inv(w)
    requires PutOk(w.journal, w.agents, input, next, after) && after.TaskKnown? && Extends(w.journal, next)
    requires |w.journal.history[input.actionId]| > next.sequence
    ensures AttemptOk(w.journal, w.net, w.agents,
              Attempt(input, PutOrRaise(TaskIncident(next, "async-send-binding-inconsistent"), Finishing)))
  {
    var r := w.journal.history[input.actionId][next.sequence];
    if r.taskId.Some? {
      assert JournaledTaskOk(w.agents, input.actionId, r);
      OneTask(w.journal.rows, w.net, w.agents, w.used, w.sent, input.actionId, r.taskId.value, next.taskId.value);
    }
    OvertakenPutIsOk(w.journal, w.net, w.agents, input, next, after);
  }

  lemma OvertakenPutIsOk(j: Journal, net: Network, g: Agents, input: Input, next: OutcomeRecord, after: After)
    requires PutOk(j, g, input, next, after) && after.TaskKnown? && Extends(j, next)
    requires |j.history[input.actionId]| > next.sequence
    requires Chain(input.actionId, j.history[input.actionId], j.rows[input.actionId])
    requires var r := j.history[input.actionId][next.sequence]; r.taskId.Some? ==> r.taskId == next.taskId
    ensures AttemptOk(j, net, g,
      Attempt(input, PutOrRaise(TaskIncident(next, "async-send-binding-inconsistent"), Finishing)))
  {
    var h := j.history[input.actionId];
    OvertakenBy(input.actionId, h, j.rows[input.actionId], next);
    IncidentExtends(next, "async-send-binding-inconsistent");
    var incident := AsIncident(next, "async-send-binding-inconsistent");
    assert Extends(j, incident) || Refused(j, incident);
  }

  lemma AfterStaleIsOk(v: Variant, w: World, input: Input, next: OutcomeRecord, after: After)
    requires Inv(w) && PutOk(w.journal, w.agents, input, next, after)
    requires Extends(w.journal, next) ==> |w.journal.history[input.actionId]| > next.sequence
    ensures AttemptOk(w.journal, w.net, w.agents, Attempt(input, AfterStale(v, next, after)))
  {
    if after.TaskKnown? && v.AsWritten? { OvertakenIncidentIsOk(w, input, next, after); }
  }

  /** A history that gains a version extending its last one is still a chain. */
  lemma ChainExtends(id: string, h: seq<OutcomeRecord>, row: OutcomeRecord, next: OutcomeRecord)
    requires Chain(id, h, row) && AsyncStep(row, next)
    ensures Chain(id, h + [next], next) && !row.Terminal() && next.binding == row.binding && next.sequence == |h|
  {
    assert forall k :: 0 <= k < |h| ==> Version(id, row.binding, k, h[k]);
    AsyncStepFacts(row, next);
    var h' := h + [next];
    assert forall k :: 0 <= k < |h'| ==> Version(id, next.binding, k, h'[k]);
    assert forall k :: 0 < k < |h'| ==> AsyncStep(h'[k - 1], h'[k]);
  }

  lemma CommitGrows(j: Journal, next: OutcomeRecord)
    requires j.rows.Keys == j.history.Keys && next.binding.actionId in j.rows
    requires !j.rows[next.binding.actionId].Terminal() && next.binding == j.rows[next.binding.actionId].binding
    ensures JournalGrows(j, Commit(j, next))
  {
  }

  lemma CommitKeepsChains(j: Journal, next: OutcomeRecord)
    requires ChainsOk(j) && next.binding.actionId in j.rows && AsyncStep(j.rows[next.binding.actionId], next)
    ensures ChainsOk(Commit(j, next))
    ensures !j.rows[next.binding.actionId].Terminal() && next.binding == j.rows[next.binding.actionId].binding
  {
    var id := next.binding.actionId;
    ChainExtends(id, j.history[id], j.rows[id], next);
  }

  lemma CommitKeepsTasks(j: Journal, g: Agents, next: OutcomeRecord)
    requires JournaledTasksOk(j, g) && next.binding.actionId in j.history
    requires JournaledTaskOk(g, next.binding.actionId, next)
    ensures JournaledTasksOk(Commit(j, next), g)
  {
    var j' := Commit(j, next);
    forall id, k | id in j'.history && 0 <= k < |j'.history[id]| ensures JournaledTaskOk(g, id, j'.history[id][k]) {
      if id != next.binding.actionId || k < |j.history[id]| { assert j'.history[id][k] == j.history[id][k]; }
    }
  }

  /** An attempt about to swap, on the row it selected, extends that row. */
  lemma SwapExtends(j: Journal, net: Network, g: Agents, t: Attempt)
    requires ChainsOk(j) && AttemptOk(j, net, g, t) && t.pc.Swapping?
    requires t.input.actionId in j.rows && j.rows[t.input.actionId] == t.pc.prior
    ensures t.pc.next.binding.actionId == t.input.actionId && SameBinding(t.pc.next.binding, t.input)
    ensures AsyncStep(j.rows[t.input.actionId], t.pc.next) && JournaledTaskOk(g, t.input.actionId, t.pc.next)
    ensures PutOk(j, g, t.input, t.pc.next, t.pc.after)
  {
  }

  lemma SwapKeepsJournal(j: Journal, net: Network, g: Agents, t: Attempt) returns (j': Journal)
    requires ChainsOk(j) && JournaledTasksOk(j, g) && AttemptOk(j, net, g, t) && t.pc.Swapping?
    requires t.input.actionId in j.rows && j.rows[t.input.actionId] == t.pc.prior
    ensures t.pc.next.binding.actionId == t.input.actionId && t.input.actionId in j.history
    ensures j' == Commit(j, t.pc.next) && ChainsOk(j') && JournaledTasksOk(j', g)
    ensures JournalGrows(j, j') && j'.rows.Keys == j.rows.Keys && j'.rows[t.input.actionId] == t.pc.next
    ensures SameBinding(t.pc.next.binding, t.input) && AfterFits(t.input, t.pc.next, t.pc.after)
  {
    hide Chain, AsyncStep, RowOk, PacketOk, TaskOk, AcceptedOk, OneSender, OneMessage, JournaledTaskOk;
    SwapExtends(j, net, g, t);
    CommitKeepsChains(j, t.pc.next);
    CommitKeepsTasks(j, g, t.pc.next);
    CommitGrows(j, t.pc.next);
    j' := Commit(j, t.pc.next);
  }

  /** The journal may grow under everything else while one attempt moves on. */
  lemma GrownJournalKeepsInv(w: World, a: nat, t: Attempt, j': Journal, pc: Pc)
    requires Inv(w) && a in w.attempts && w.attempts[a] == t
    requires ChainsOk(j') && JournaledTasksOk(j', w.agents) && JournalGrows(w.journal, j')
    requires j'.rows.Keys == w.journal.rows.Keys
    requires AttemptOk(j', w.net, w.agents, t.(pc := pc)) && !Sender(pc)
    ensures Inv(SetPc(w.(journal := j'), a, pc))
  {
    hide Chain, AsyncStep, RowOk, PacketOk, TaskOk, AcceptedOk, OneSender, OneMessage, JournaledTaskOk;
    AttemptsSurvive(w.journal, w.net, w.agents, j', w.net, w.agents, w.attempts);
    RowsRebound(w, j'.rows, w.attempts[a := t.(pc := pc)]);
  }

  /** What an attempt does after its commit is right for the row it has just written. */
  lemma AfterPutIsOk(j: Journal, net: Network, g: Agents, input: Input, next: OutcomeRecord, after: After, at: string)
    requires ChainsOk(j) && JournaledTasksOk(j, g)
    requires input.actionId in j.rows && j.rows[input.actionId] == next
    requires SameBinding(next.binding, input) && AfterFits(input, next, after)
    ensures AttemptOk(j, net, g, Attempt(input, AfterPut(next, after, at)))
    ensures !Sender(AfterPut(next, after, at))
  {
    hide Chain, AsyncStep, RowOk, PacketOk, TaskOk, AcceptedOk, OneSender, OneMessage, JournaledTaskOk;
    RowIsHeld(j, input);
    if !next.Terminal() {
      HeldIsReady(j, g, input, next);
      match after {
        case Finishing =>
        case Resume =>
        case OpaqueUnknown => IncidentIsOk(j, net, g, input, next, "opaque-effect-unknown");
        case TaskKnown(task) => if task.state.TaskCompleted? { FinishIsOk(j, net, g, input, next, task, at); }
      }
    }
  }

  /** What the network, agents and senders know of rows depends only on the bindings. */
  lemma RowsRebound(w: World, rows: map<string, OutcomeRecord>, attempts: map<nat, Attempt>)
    requires Inv(w) && rows.Keys == w.journal.rows.Keys
    requires forall id :: id in rows ==> rows[id].binding == w.journal.rows[id].binding
    requires forall a, id :: MaySend(attempts, a, id) ==> MaySend(w.attempts, a, id)
    ensures RowsOk(rows, w.used) && NetworkOk(rows, w.net, w.agents.idempotent) && AgentsOk(rows, w.agents, w.used)
    ensures SendersOk(rows, attempts, w.sent) && TrafficOk(rows, w.net, w.agents, w.sent)
  {
    AgentsRebound(w.journal.rows, rows, w.agents, w.used);
    NetworkRebound(w.journal.rows, rows, w.net, w.agents.idempotent);
    SendersRebound(w.journal.rows, rows, w.attempts, attempts, w.sent);
  }

  lemma AgentsRebound(rows: map<string, OutcomeRecord>, rows': map<string, OutcomeRecord>, g: Agents, used: set<string>)
    requires RowsOk(rows, used) && AgentsOk(rows, g, used) && rows.Keys == rows'.Keys
    requires forall id :: id in rows ==> rows'[id].binding == rows[id].binding
    ensures RowsOk(rows', used) && AgentsOk(rows', g, used)
  {
    forall t | t in g.tasks ensures TaskOk(rows', g, used, t, g.tasks[t]) {
      assert TaskOk(rows, g, used, t, g.tasks[t]);
    }
  }

  lemma NetworkRebound(rows: map<string, OutcomeRecord>, rows': map<string, OutcomeRecord>, net: Network,
      idempotent: set<string>)
    requires NetworkOk(rows, net, idempotent) && rows.Keys == rows'.Keys
    requires forall id :: id in rows ==> rows'[id].binding == rows[id].binding
    ensures NetworkOk(rows', net, idempotent)
  {
    forall n | n in net.inflight ensures PacketOk(rows', idempotent, net.inflight[n]) {
      assert PacketOk(rows, idempotent, net.inflight[n]);
    }
  }

  lemma SendersRebound(rows: map<string, OutcomeRecord>, rows': map<string, OutcomeRecord>,
      attempts: map<nat, Attempt>, attempts': map<nat, Attempt>, sent: map<string, nat>)
    requires SendersOk(rows, attempts, sent) && rows.Keys == rows'.Keys
    requires forall id :: id in rows ==> rows'[id].binding == rows[id].binding
    requires forall a, id :: MaySend(attempts', a, id) ==> MaySend(attempts, a, id)
    ensures SendersOk(rows', attempts', sent)
  {
    forall id | id in rows && rows[id].binding.receiver.Opaque? ensures OneSender(attempts', sent, id) {
      assert OneSender(attempts, sent, id);
    }
  }

  lemma PayloadInjective(x: string, y: string)
    requires PayloadSha256(x) == PayloadSha256(y)
    ensures x == y
  {
    var p := "sha256:";
    assert (p + x)[|p|..] == x && (p + y)[|p|..] == y;
  }

  /** Handing out another UUID changes nothing else. */
  lemma UsedGrows(w: World, uuid: string)
    requires Inv(w)
    ensures Inv(w.(used := w.used + {uuid}))
  {
    var used := w.used + {uuid};
    forall t | t in w.agents.tasks ensures TaskOk(w.journal.rows, w.agents, used, t, w.agents.tasks[t]) {
      assert TaskOk(w.journal.rows, w.agents, w.used, t, w.agents.tasks[t]);
    }
    forall id | id in w.journal.rows ensures RowOk(w.journal.rows[id].binding, used) {
      assert RowOk(w.journal.rows[id].binding, w.used);
    }
  }

  lemma ContextsDoNotMatter(w: World, contexts: map<(string, string), string>)
    requires Inv(w)
    ensures Inv(w.(journal := w.journal.(contexts := contexts)))
  {
    var j' := w.journal.(contexts := contexts);
    AttemptsSurvive(w.journal, w.net, w.agents, j', w.net, w.agents, w.attempts);
  }

  /** Nobody knows anything of an action that has no row. */
  lemma UnknownAction(w: World, id: string)
    requires Inv(w) && id !in w.journal.rows
    ensures forall b :: !MaySend(w.attempts, b, id)
    ensures forall n :: !Sends(w.net, n, id)
    ensures forall t :: !TaskOf(w.agents, id, t)
    ensures Sent(w.sent, id) == 0
  {
    forall b | b in w.attempts ensures !MaySend(w.attempts, b, id) {
      assert AttemptOk(w.journal, w.net, w.agents, w.attempts[b]);
    }
    forall n | n in w.net.inflight ensures !Sends(w.net, n, id) {
      assert PacketOk(w.journal.rows, w.agents.idempotent, w.net.inflight[n]);
    }
    forall t | t in w.agents.tasks ensures !TaskOf(w.agents, id, t) {
      assert TaskOk(w.journal.rows, w.agents, w.used, t, w.agents.tasks[t]);
    }
  }

  lemma FirstChain(row: OutcomeRecord)
    requires row.phase.Submitted? && row.taskId.None? && Version(row.binding.actionId, row.binding, 0, row)
    ensures Chain(row.binding.actionId, [row], row)
  {
  }

  lemma NewRowKeepsChains(j: Journal, row: OutcomeRecord)
    requires ChainsOk(j) && row.binding.actionId !in j.rows
    requires row.phase.Submitted? && row.taskId.None? && Version(row.binding.actionId, row.binding, 0, row)
    ensures ChainsOk(InsertRow(j, row)) && JournalGrows(j, InsertRow(j, row))
  {
    hide Chain;
    FirstChain(row);
    var j' := InsertRow(j, row);
    forall other | other in j'.rows ensures Chain(other, j'.history[other], j'.rows[other]) {
      if other != row.binding.actionId { assert Chain(other, j.history[other], j.rows[other]); }
    }
  }

  lemma NewRowKeepsRows(j: Journal, g: Agents, used: set<string>, row: OutcomeRecord, uuid: string)
    requires JournaledTasksOk(j, g) && RowsOk(j.rows, used) && row.binding.actionId !in j.rows && uuid !in used
    requires row.taskId.None? && row.binding.messageId == Some(uuid) && RowOk(row.binding, used + {uuid})
    ensures JournaledTasksOk(InsertRow(j, row), g) && RowsOk(InsertRow(j, row).rows, used + {uuid})
  {
    var j' := InsertRow(j, row);
    var id := row.binding.actionId;
    forall other | other in j'.rows ensures RowOk(j'.rows[other].binding, used + {uuid}) {
      if other != id { assert RowOk(j.rows[other].binding, used); }
    }
    forall i | i in j.rows ensures j.rows[i].binding.messageId != Some(uuid) {
      assert RowOk(j.rows[i].binding, used);
    }
    forall other, k | other in j'.history && 0 <= k < |j'.history[other]|
      ensures JournaledTaskOk(g, other, j'.history[other][k])
    {
      if other != id { assert JournaledTaskOk(g, other, j.history[other][k]); }
    }
  }

  /** More rows and more UUIDs leave the network and the agents as they were. */
  lemma MoreRows(rows: map<string, OutcomeRecord>, rows': map<string, OutcomeRecord>, net: Network, g: Agents,
      used: set<string>, used': set<string>)
    requires NetworkOk(rows, net, g.idempotent) && AgentsOk(rows, g, used) && used <= used'
    requires forall id :: id in rows ==> id in rows' && rows'[id] == rows[id]
    ensures NetworkOk(rows', net, g.idempotent) && AgentsOk(rows', g, used')
  {
    forall k | k in g.tasks ensures TaskOk(rows', g, used', k, g.tasks[k]) {
      assert TaskOk(rows, g, used, k, g.tasks[k]);
    }
    forall n | n in net.inflight ensures PacketOk(rows', g.idempotent, net.inflight[n]) {
      assert PacketOk(rows, g.idempotent, net.inflight[n]);
    }
  }

  /** The row a `begin` would insert. */
  lemma SubmissionFacts(used: set<string>, input: Input, row: OutcomeRecord, uuid: string, contextId: string)
    requires Success(row) == Submission(input, uuid, contextId)
    ensures FirstVersion(used + {uuid}, input, row) && row.binding.messageId == Some(uuid)
  {
  }

  ghost predicate FirstVersion(used: set<string>, input: Input, row: OutcomeRecord) {
    && row.binding.actionId == input.actionId && SameBinding(row.binding, input)
    && row.phase.Submitted? && row.taskId.None? && Version(row.binding.actionId, row.binding, 0, row)
    && RowOk(row.binding, used)
  }

  lemma NewRowKeepsParts(j: Journal, net: Network, g: Agents, used: set<string>, input: Input, row: OutcomeRecord,
      uuid: string)
    returns (j': Journal, used': set<string>)
    requires JournalOk(j, g, used) && NetworkOk(j.rows, net, g.idempotent) && AgentsOk(j.rows, g, used) && uuid !in used
    requires input.actionId !in j.rows && FirstVersion(used + {uuid}, input, row) && row.binding.messageId == Some(uuid)
    ensures j' == InsertRow(j, row) && used' == used + {uuid} && JournalGrows(j, j')
    ensures JournalOk(j', g, used') && NetworkOk(j'.rows, net, g.idempotent) && AgentsOk(j'.rows, g, used')
    ensures j'.rows == j.rows[input.actionId := row]
  {
    hide Chain, AsyncStep, RowOk, PacketOk, TaskOk, AcceptedOk, OneSender, OneMessage, JournaledTaskOk;
    NewRowKeepsChains(j, row);
    NewRowKeepsRows(j, g, used, row, uuid);
    j', used' := InsertRow(j, row), used + {uuid};
    MoreRows(j.rows, j'.rows, net, g, used, used');
  }

  /** `begin` of an action that has no row yet: this attempt becomes its one possible sender. */
  lemma NewRowKeepsInv(w: World, a: nat, t: Attempt, row: OutcomeRecord, uuid: string) returns (w': World)
    requires Inv(w) && a in w.attempts && w.attempts[a] == t && uuid !in w.used
    requires t.pc.Contexted? && t.input.actionId !in w.journal.rows
    requires FirstVersion(w.used + {uuid}, t.input, row) && row.binding.messageId == Some(uuid)
    ensures w' == SetPc(w.(journal := InsertRow(w.journal, row), used := w.used + {uuid}), a, Inserted(true)) && Inv(w')
  {
    hide Chain, AsyncStep, RowOk, PacketOk, TaskOk, AcceptedOk, OneSender, OneMessage, JournaledTaskOk;
    UnknownAction(w, t.input.actionId);
    var j', used' := NewRowKeepsParts(w.journal, w.net, w.agents, w.used, t.input, row, uuid);
    AttemptsSurvive(w.journal, w.net, w.agents, j', w.net, w.agents, w.attempts);
    NewRowKeepsSenders(w, a, j'.rows);
    w' := SetPc(w.(journal := j', used := used'), a, Inserted(true));
    assert AttemptOk(j', w.net, w.agents, t.(pc := Inserted(true)));
  }

  lemma NewRowKeepsSenders(w: World, a: nat, rows: map<string, OutcomeRecord>)
    requires SendersOk(w.journal.rows, w.attempts, w.sent) && a in w.attempts && w.attempts[a].pc.Contexted?
    requires TrafficOk(w.journal.rows, w.net, w.agents, w.sent)
    requires var id := w.attempts[a].input.actionId;
      && id !in w.journal.rows && id in rows && rows == w.journal.rows[id := rows[id]]
      && (forall b :: !MaySend(w.attempts, b, id)) && (forall n :: !Sends(w.net, n, id))
      && (forall t :: !TaskOf(w.agents, id, t)) && Sent(w.sent, id) == 0
    ensures SendersOk(rows, SetPc(w, a, Inserted(true)).attempts, w.sent) && TrafficOk(rows, w.net, w.agents, w.sent)
  {
    var attempts := SetPc(w, a, Inserted(true)).attempts;
    forall id | id in rows && rows[id].binding.receiver.Opaque? ensures OneSender(attempts, w.sent, id) {
      assert forall b :: b != a ==> (MaySend(attempts, b, id) <==> MaySend(w.attempts, b, id));
      if id != w.attempts[a].input.actionId { assert OneSender(w.attempts, w.sent, id); }
    }
  }

  /** The rest of the world when one attempt issues a request. */
  lemma EmitKeepsAttempts(w: World, p: Packet)
    requires Inv(w) && PacketOk(w.journal.rows, w.agents.idempotent, p)
    ensures NetworkOk(w.journal.rows, Emit(w.net, p), w.agents.idempotent)
    ensures AttemptsOk(w.journal, Emit(w.net, p), w.agents, w.attempts)
  {
    hide JournalOk, AttemptOk, AgentsOk, SendersOk, TrafficOk;
    AttemptsSurvive(w.journal, w.net, w.agents, w.journal, Emit(w.net, p), w.agents, w.attempts);
  }

  lemma EmitGetKeepsInv(w: World, a: nat, t: Attempt)
    requires Inv(w) && a in w.attempts && w.attempts[a] == t && t.pc.Polling? && t.pc.record.taskId.Some?
    ensures var p := GetTask(t.input.actionId, t.input.identity, t.pc.record.taskId.value);
      Inv(SetPc(w.(net := Emit(w.net, p)), a, AwaitGet(t.pc.record, w.net.next)))
  {
    hide Chain, AsyncStep, RowOk, TaskOk, AcceptedOk, JournaledTaskOk;
    var p := GetTask(t.input.actionId, t.input.identity, t.pc.record.taskId.value);
    assert AttemptOk(w.journal, w.net, w.agents, t);
    EmitKeepsAttempts(w, p);
    var w' := w.(net := Emit(w.net, p));
    forall id | id in w.journal.rows && w.journal.rows[id].binding.receiver.Opaque?
      ensures OneMessage(w'.net, w.agents, w.sent, id)
    {
      assert OneMessage(w.net, w.agents, w.sent, id);
      assert forall n :: Sends(w'.net, n, id) ==> Sends(w.net, n, id);
    }
    assert AttemptOk(w'.journal, w'.net, w'.agents, t);
    MoveKeepsInv(w', a, AwaitGet(t.pc.record, w.net.next));
  }

  /** The Message sent is the journal's: its ids and content are those of the row. */
  lemma SendIsJournaled(w: World, t: Attempt)
    requires ChainsOk(w.journal) && JournaledTasksOk(w.journal, w.agents) && AttemptOk(w.journal, w.net, w.agents, t)
    requires t.pc.Looping? && t.pc.record.taskId.None? && Honest(w.agents, t.input)
    ensures Ready(w.journal, w.agents, t.input, t.pc.record)
    ensures PacketOk(w.journal.rows, w.agents.idempotent, SendMessage(t.input.actionId, t.input.identity,
              t.pc.record.binding.messageId.value, t.pc.record.binding.contextId.value, t.input.parts))
    ensures w.journal.rows[t.input.actionId].binding == t.pc.record.binding
  {
    HeldIsReady(w.journal, w.agents, t.input, t.pc.record);
    var id := t.input.actionId;
    assert Chain(id, w.journal.history[id], w.journal.rows[id]);
    assert Version(id, w.journal.rows[id].binding, t.pc.record.sequence, w.journal.history[id][t.pc.record.sequence]);
  }

  lemma EmitSendKeepsInv(w: World, a: nat, t: Attempt, p: Packet)
    requires Inv(w) && a in w.attempts && w.attempts[a] == t && t.pc.Looping? && t.pc.record.taskId.None?
    requires Honest(w.agents, t.input)
    requires t.pc.record.binding.messageId.Some? && t.pc.record.binding.contextId.Some?
    requires p == SendMessage(t.input.actionId, t.input.identity, t.pc.record.binding.messageId.value,
                              t.pc.record.binding.contextId.value, t.input.parts)
    ensures Inv(SetPc(w.(net := Emit(w.net, p), sent := w.sent[p.action := Sent(w.sent, p.action) + 1]),
                      a, AwaitSend(t.pc.record, t.pc.created, w.net.next)))
  {
    hide Chain, AsyncStep, RowOk, PacketOk, TaskOk, AcceptedOk, JournaledTaskOk;
    assert AttemptOk(w.journal, w.net, w.agents, t);
    SendIsJournaled(w, t);
    EmitKeepsAttempts(w, p);
    var net' := Emit(w.net, p);
    var sent' := w.sent[p.action := Sent(w.sent, p.action) + 1];
    var attempts' := w.attempts[a := t.(pc := AwaitSend(t.pc.record, t.pc.created, w.net.next))];
    assert AttemptOk(w.journal, net', w.agents, attempts'[a]);
    assert AttemptsOk(w.journal, net', w.agents, attempts');
    EmitSendKeepsSenders(w, a, t, net', sent', attempts');
  }

  lemma EmitSendKeepsSenders(w: World, a: nat, t: Attempt, net': Network, sent': map<string, nat>,
      attempts': map<nat, Attempt>)
    requires SendersOk(w.journal.rows, w.attempts, w.sent) && TrafficOk(w.journal.rows, w.net, w.agents, w.sent)
    requires a in w.attempts && w.attempts[a] == t && t.pc.Looping? && t.pc.record.taskId.None?
    requires t.input.actionId in w.journal.rows
    requires w.journal.rows[t.input.actionId].binding.receiver.Opaque? ==> t.pc.created
    requires exists p: Packet :: p.SendMessage? && p.action == t.input.actionId && net' == Emit(w.net, p)
    requires sent' == w.sent[t.input.actionId := Sent(w.sent, t.input.actionId) + 1]
    requires attempts' == w.attempts[a := t.(pc := AwaitSend(t.pc.record, t.pc.created, w.net.next))]
    ensures SendersOk(w.journal.rows, attempts', sent') && TrafficOk(w.journal.rows, net', w.agents, sent')
  {
    var action := t.input.actionId;
    forall id | id in w.journal.rows && w.journal.rows[id].binding.receiver.Opaque?
      ensures OneSender(attempts', sent', id) && OneMessage(net', w.agents, sent', id)
    {
      assert OneSender(w.attempts, w.sent, id) && OneMessage(w.net, w.agents, w.sent, id);
      assert forall b :: MaySend(attempts', b, id) ==> MaySend(w.attempts, b, id) && b != a;
      assert forall n :: Sends(net', n, id) ==> Sends(w.net, n, id) || (n == w.net.next && id == action);
      if id == action { assert MaySend(w.attempts, a, id); }
    }
  }

  /** A request answered: it leaves the network, and a send is answered with its action's Task. */
  lemma AnswerKeepsInv(w: World, n: nat, reply: Reply, g': Agents)
    requires Inv(w) && n in w.net.inflight && AgentsGrow(w.agents, g')
    requires reply.TaskReply? && w.net.inflight[n].SendMessage? ==> TaskOf(g', w.net.inflight[n].action, reply.task.id)
    ensures NetworkOk(w.journal.rows, Answered(w.net, n, reply), g'.idempotent)
    ensures AttemptsOk(w.journal, Answered(w.net, n, reply), g', w.attempts)
  {
    AttemptsSurvive(w.journal, w.net, w.agents, w.journal, Answered(w.net, n, reply), g', w.attempts);
  }

  lemma FewerSendsKeepTraffic(w: World, net': Network)
    requires TrafficOk(w.journal.rows, w.net, w.agents, w.sent)
    requires forall n, id :: Sends(net', n, id) ==> Sends(w.net, n, id)
    ensures TrafficOk(w.journal.rows, net', w.agents, w.sent)
  {
    forall id | id in w.journal.rows && w.journal.rows[id].binding.receiver.Opaque?
      ensures OneMessage(net', w.agents, w.sent, id)
    {
      assert OneMessage(w.net, w.agents, w.sent, id);
    }
  }

  /** An idempotent agent that knows the messageId knows it with this content: no conflict, same Task. */
  lemma KnownMessage(w: World, n: nat)
    requires Inv(w) && n in w.net.inflight && w.net.inflight[n].SendMessage?
    requires var p := w.net.inflight[n];
      p.identity in w.agents.idempotent && (p.identity, p.messageId) in w.agents.accepted
    ensures var p := w.net.inflight[n]; var t := w.agents.accepted[(p.identity, p.messageId)];
      && TaskOf(w.agents, p.action, t)
      && w.agents.tasks[t].contextId == p.contextId && w.agents.tasks[t].parts == p.parts
  {
    var p := w.net.inflight[n];
    var key := (p.identity, p.messageId);
    assert PacketOk(w.journal.rows, w.agents.idempotent, p);
    assert AcceptedOk(w.agents, key);
    var t := w.agents.accepted[key];
    assert TaskOk(w.journal.rows, w.agents, w.used, t, w.agents.tasks[t]);
    PayloadInjective(p.parts, w.agents.tasks[t].parts);
  }

  /** A new Task at an agent: the first for its messageId, or the only one of an opaque action. */
  lemma NewTaskKeepsAgents(rows: map<string, OutcomeRecord>, g: Agents, used: set<string>, p: Packet, uuid: string)
    requires AgentsOk(rows, g, used) && PacketOk(rows, g.idempotent, p) && p.SendMessage? && uuid !in used && uuid != ""
    requires !(p.identity in g.idempotent && (p.identity, p.messageId) in g.accepted)
    ensures var row := TaskRow(p.identity, p.action, p.messageId, p.contextId, p.parts, TaskWorking, []);
      var accepted := if p.identity in g.idempotent then g.accepted[(p.identity, p.messageId) := uuid] else g.accepted;
      var g' := g.(tasks := g.tasks[uuid := row], accepted := accepted);
      AgentsOk(rows, g', used + {uuid}) && AgentsGrow(g, g') && TaskOf(g', p.action, uuid)
      && (forall id, t :: TaskOf(g', id, t) ==> TaskOf(g, id, t) || (id == p.action && t == uuid))
  {
    assert forall t :: t in g.tasks ==> TaskOk(rows, g, used, t, g.tasks[t]);
    assert forall key :: key in g.accepted ==> AcceptedOk(g, key);
  }

  lemma NewTaskKeepsTraffic(w: World, n: nat, net': Network, g': Agents, uuid: string)
    requires TrafficOk(w.journal.rows, w.net, w.agents, w.sent) && n in w.net.inflight && w.net.inflight[n].SendMessage?
    requires forall m, id :: Sends(net', m, id) ==> Sends(w.net, m, id) && m != n
    requires forall id, t :: TaskOf(g', id, t) ==>
      TaskOf(w.agents, id, t) || (id == w.net.inflight[n].action && t == uuid)
    ensures TrafficOk(w.journal.rows, net', g', w.sent)
  {
    forall id | id in w.journal.rows && w.journal.rows[id].binding.receiver.Opaque?
      ensures OneMessage(net', g', w.sent, id)
    {
      assert OneMessage(w.net, w.agents, w.sent, id);
      if id == w.net.inflight[n].action { assert Sends(w.net, n, id); }
    }
  }
}
