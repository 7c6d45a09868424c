/** What every step of the dispatch protocol keeps. */
module DispatchInvariant {
  import opened Prelude
  import opened Outcome
  import opened Dispatch

  /** One legal transition of the asynchronous path: ambiguous send, Task start from a record without a
      Task, completion with the journaled Task's receipt, or incident. */
  ghost predicate AsyncStep(prev: OutcomeRecord, next: OutcomeRecord) {
    || SendAmbiguous(prev) == Success(next)
    || (prev.taskId.None? && next.taskId.Some? && next.phase.Working?
        && TaskStarted(prev, Str(next.taskId.value)) == Success(next))
    || (next.receipt.Some? && next.phase.Confirmed? && TaskFinished(prev, next.receipt.value) == Success(next))
    || (next.reason.Some? && TaskIncident(prev, next.reason.value) == Success(next))
  }

  ghost predicate Open(r: OutcomeRecord) {
    ((r.phase.Submitted? || r.phase.Unknown?) && r.taskId.None?) || (r.phase.Working? && r.taskId.Some?)
  }

  function Rank(p: Phase): nat {
    match p case Submitted => 0 case Unknown => 1 case Working => 2 case _ => 3
  }

  ghost predicate Shaped(r: OutcomeRecord) { Open(r) || r.Terminal() }

  lemma AsyncStepFacts(prev: OutcomeRecord, next: OutcomeRecord)
    requires AsyncStep(prev, next) && Shaped(prev)
    ensures Open(prev) && Shaped(next) && next.binding == prev.binding
    ensures next.sequence == prev.sequence + 1 && next.expectedPhase == Some(prev.phase)
    ensures Rank(next.phase) > Rank(prev.phase)
    ensures prev.taskId.Some? ==> next.taskId == prev.taskId
    ensures next.taskId.Some? && prev.taskId.None? ==> next.phase.Working?
  {
  }

  /** The versions of one row: an unbroken chain of legal transitions ending in the row's value. */
  ghost predicate Chain(id: string, h: seq<OutcomeRecord>, row: OutcomeRecord) {
    && |h| >= 1 && h[|h| - 1] == row
    && h[0].phase.Submitted? && h[0].taskId.None?
    && (forall k :: 0 <= k < |h| ==> Version(id, row.binding, k, h[k]))
    && (forall k :: 0 < k < |h| ==> AsyncStep(h[k - 1], h[k]))
  }

  ghost predicate Version(id: string, b: Binding, k: nat, r: OutcomeRecord) {
    && r.sequence == k && r.binding == b && b.actionId == id && Shaped(r)
    && b.messageId.Some? && b.contextId.Some? && b.pinnedIdentity.Some? && b.payloadSha256.Some? && b.effectKind.A2A?
  }

  ghost predicate TaskOf(g: Agents, action: string, taskId: string) {
    taskId in g.tasks && g.tasks[taskId].origin == action
  }

  ghost predicate JournalOk(j: Journal, g: Agents, used: set<string>) {
    ChainsOk(j) && JournaledTasksOk(j, g) && RowsOk(j.rows, used)
  }

  ghost predicate ChainsOk(j: Journal) {
    j.rows.Keys == j.history.Keys && forall id :: id in j.rows ==> Chain(id, j.history[id], j.rows[id])
  }

  /** Every Task id in any version of a row is a Task the action's own Message created. */
  ghost predicate JournaledTasksOk(j: Journal, g: Agents) {
    forall id, k :: id in j.history && 0 <= k < |j.history[id]| ==> JournaledTaskOk(g, id, j.history[id][k])
  }

  ghost predicate JournaledTaskOk(g: Agents, id: string, r: OutcomeRecord) {
    r.taskId.Some? ==> TaskOf(g, id, r.taskId.value)
  }

  ghost predicate RowsOk(rows: map<string, OutcomeRecord>, used: set<string>) {
    && (forall id :: id in rows ==> RowOk(rows[id].binding, used))
    && (forall i, k :: i in rows && k in rows && i != k ==> rows[i].binding.messageId != rows[k].binding.messageId)
  }

  ghost predicate RowOk(b: Binding, used: set<string>) {
    b.messageId.Some? && b.messageId.value in used
  }

  /** `r` is a committed version of the attempt's own action. */
  ghost predicate Held(j: Journal, input: Input, r: OutcomeRecord) {
    && input.actionId in j.rows && input.actionId in j.history
    && 0 <= r.sequence < |j.history[input.actionId]| && j.history[input.actionId][r.sequence] == r
    && SameBinding(r.binding, input)
  }

  /** The record about to be put either extends the version it was built on, or can never be admitted. */
  ghost predicate PutOk(j: Journal, g: Agents, input: Input, next: OutcomeRecord, after: After) {
    && next.binding.actionId == input.actionId && SameBinding(next.binding, input) && Shaped(next)
    && input.actionId in j.rows && input.actionId in j.history
    && 1 <= next.sequence <= |j.history[input.actionId]|
    && (Extends(j, next) || (after.Finishing? && Refused(j, next)))
    && (next.taskId.Some? ==> TaskOf(g, input.actionId, next.taskId.value))
    && AfterFits(input, next, after)
  }

  ghost predicate AfterFits(input: Input, next: OutcomeRecord, after: After) {
    match after
    case Finishing => next.Terminal()
    case Resume => next.phase.Unknown? && input.mode.Participating?
    case OpaqueUnknown => next.phase.Unknown? && input.mode.Opaque?
    case TaskKnown(task) => next.phase.Working? && next.taskId == Some(task.id)
  }

  ghost predicate Extends(j: Journal, next: OutcomeRecord) {
    var id := next.binding.actionId;
    id in j.history && 1 <= next.sequence <= |j.history[id]| && AsyncStep(j.history[id][next.sequence - 1], next)
  }

  ghost predicate Refused(j: Journal, next: OutcomeRecord) {
    var id := next.binding.actionId;
    && id in j.history && 1 <= next.sequence <= |j.history[id]|
    && next.expectedPhase != Some(j.history[id][next.sequence - 1].phase)
  }

  /** What request `n` of an attempt waiting on a send may be or have become. */
  ghost predicate SendPending(net: Network, g: Agents, action: string, n: nat) {
    && n < net.next
    && (n in net.inflight ==> net.inflight[n].SendMessage? && net.inflight[n].action == action)
    && (n in net.replies && net.replies[n].TaskReply? ==> TaskOf(g, action, net.replies[n].task.id))
  }

  ghost predicate AttemptOk(j: Journal, net: Network, g: Agents, t: Attempt) {
    match t.pc
    case Inserted(created) =>
      t.input.actionId in j.rows && (created ==> SameBinding(j.rows[t.input.actionId].binding, t.input))
    case Looping(r, created) =>
      Held(j, t.input, r) && Open(r) && (t.input.mode.Opaque? && r.taskId.None? ==> created)
    case AwaitSend(r, _, n) =>
      Held(j, t.input, r) && Open(r) && r.taskId.None? && SendPending(net, g, t.input.actionId, n)
    case Polling(r) => Held(j, t.input, r) && Open(r) && r.phase.Working?
    case AwaitGet(r, n) => Held(j, t.input, r) && Open(r) && r.phase.Working? && n < net.next
    case Putting(next, after) => PutOk(j, g, t.input, next, after)
    case Swapping(next, prior, after) =>
      && PutOk(j, g, t.input, next, after) && Extends(j, next)
      && prior == j.history[t.input.actionId][next.sequence - 1]
    case Rereading => t.input.actionId in j.rows
    case Done(answer) =>
      (answer.Returned? || answer.Unresolved?) ==>
        && t.input.actionId in j.rows && j.rows[t.input.actionId].Terminal()
        && answer == Decided(j.rows[t.input.actionId])
    case _ => true
  }

  ghost predicate AttemptsOk(j: Journal, net: Network, g: Agents, attempts: map<nat, Attempt>) {
    forall a :: a in attempts ==> AttemptOk(j, net, g, attempts[a])
  }

  /** A Message goes out only under a verified pin: a deduplicating contract, a deduplicating agent. */
  ghost predicate PacketOk(rows: map<string, OutcomeRecord>, idempotent: set<string>, p: Packet) {
    p.SendMessage? ==>
      && p.action in rows
      && rows[p.action].binding.messageId == Some(p.messageId)
      && rows[p.action].binding.contextId == Some(p.contextId)
      && rows[p.action].binding.pinnedIdentity == Some(p.identity)
      && rows[p.action].binding.payloadSha256 == Some(PayloadSha256(p.parts))
      && (rows[p.action].binding.receiver.Participating? ==> p.identity in idempotent)
  }

  ghost predicate TaskOk(rows: map<string, OutcomeRecord>, g: Agents, used: set<string>, taskId: string, t: TaskRow) {
    && taskId in used && taskId != ""
    && t.origin in rows
    && rows[t.origin].binding.messageId == Some(t.messageId)
    && rows[t.origin].binding.contextId == Some(t.contextId)
    && rows[t.origin].binding.pinnedIdentity == Some(t.identity)
    && rows[t.origin].binding.payloadSha256 == Some(PayloadSha256(t.parts))
    && (rows[t.origin].binding.receiver.Participating? ==> t.identity in g.idempotent)
    && (t.identity in g.idempotent ==>
          (t.identity, t.messageId) in g.accepted && g.accepted[(t.identity, t.messageId)] == taskId)
  }

  ghost predicate NetworkOk(rows: map<string, OutcomeRecord>, net: Network, idempotent: set<string>) {
    && (forall n :: n in net.inflight ==>
          n < net.next && n !in net.replies && PacketOk(rows, idempotent, net.inflight[n]))
    && (forall n :: n in net.replies ==> n < net.next)
  }

  ghost predicate AgentsOk(rows: map<string, OutcomeRecord>, g: Agents, used: set<string>) {
    && (forall t :: t in g.tasks ==> TaskOk(rows, g, used, t, g.tasks[t]))
    && (forall key :: key in g.accepted ==> AcceptedOk(g, key))
    && !g.conflict
  }

  ghost predicate AcceptedOk(g: Agents, key: (string, string))
    requires key in g.accepted
  {
    var t := g.accepted[key];
    t in g.tasks && g.tasks[t].identity == key.0 && g.tasks[t].messageId == key.1
  }

  /** The attempt that may still send an opaque action's one Message. */
  ghost predicate MaySend(attempts: map<nat, Attempt>, a: nat, action: string) {
    a in attempts && attempts[a].input.actionId == action && Sender(attempts[a].pc)
  }

  ghost predicate Sender(pc: Pc) {
    pc == Inserted(true) || (pc.Looping? && pc.created && pc.record.taskId.None?)
  }

  /** An opaque action has one sender until it sends, and then none. */
  ghost predicate OneSender(attempts: map<nat, Attempt>, sent: map<string, nat>, action: string) {
    && (forall a, b :: MaySend(attempts, a, action) && MaySend(attempts, b, action) ==> a == b)
    && Sent(sent, action) <= 1
    && (Sent(sent, action) == 1 ==> forall a :: !MaySend(attempts, a, action))
  }

  ghost predicate Sends(net: Network, n: nat, action: string) {
    n in net.inflight && net.inflight[n].SendMessage? && net.inflight[n].action == action
  }

  /** An opaque action has at most one request in flight or one Task, and neither before it sends. */
  ghost predicate OneMessage(net: Network, g: Agents, sent: map<string, nat>, action: string) {
    && (Sent(sent, action) == 0 ==> (forall n :: !Sends(net, n, action)) && (forall t :: !TaskOf(g, action, t)))
    && (forall n, m :: Sends(net, n, action) && Sends(net, m, action) ==> n == m)
    && (forall n, t :: Sends(net, n, action) ==> !TaskOf(g, action, t))
    && (forall t, u :: TaskOf(g, action, t) && TaskOf(g, action, u) ==> t == u)
  }

  ghost predicate SendersOk(rows: map<string, OutcomeRecord>, attempts: map<nat, Attempt>, sent: map<string, nat>) {
    && (forall id :: id in rows && rows[id].binding.receiver.Opaque? ==> OneSender(attempts, sent, id))
    && (forall id :: id in sent ==> id in rows)
  }

  ghost predicate TrafficOk(rows: map<string, OutcomeRecord>, net: Network, g: Agents, sent: map<string, nat>) {
    forall id :: id in rows && rows[id].binding.receiver.Opaque? ==> OneMessage(net, g, sent, id)
  }

  ghost predicate Inv(w: World) {
    && JournalOk(w.journal, w.agents, w.used)
    && AttemptsOk(w.journal, w.net, w.agents, w.attempts)
    && NetworkOk(w.journal.rows, w.net, w.agents.idempotent)
    && AgentsOk(w.journal.rows, w.agents, w.used)
    && SendersOk(w.journal.rows, w.attempts, w.sent)
    && TrafficOk(w.journal.rows, w.net, w.agents, w.sent)
  }

  /** At most one Task per action, whether the agent deduplicates or the action sends once. */
  lemma OneTask(rows: map<string, OutcomeRecord>, net: Network, g: Agents, used: set<string>, sent: map<string, nat>,
      action: string, t: string, u: string)
    requires AgentsOk(rows, g, used) && TrafficOk(rows, net, g, sent)
    requires TaskOf(g, action, t) && TaskOf(g, action, u)
    ensures t == u
  {
    assert TaskOk(rows, g, used, t, g.tasks[t]) && TaskOk(rows, g, used, u, g.tasks[u]);
    if rows[action].binding.receiver.Opaque? { assert OneMessage(net, g, sent, action); }
  }

  /** Rows only gain versions, keep their binding, and stop changing once terminal. */
  ghost predicate JournalGrows(j: Journal, j': Journal) {
    && j.rows.Keys <= j'.rows.Keys && j.history.Keys <= j'.history.Keys
    && (forall id :: id in j.history ==> j.history[id] <= j'.history[id])
    && (forall id :: id in j.rows ==> j'.rows[id].binding == j.rows[id].binding)
    && (forall id :: id in j.rows && j.rows[id].Terminal() ==> j'.rows[id] == j.rows[id])
  }

  ghost predicate AgentsGrow(g: Agents, g': Agents) {
    && g.idempotent == g'.idempotent
    && forall action, t :: TaskOf(g, action, t) ==> TaskOf(g', action, t)
  }

  /** Requests already made are neither altered nor repeated, and a send is answered with its action's Task. */
  ghost predicate NetworkGrows(net: Network, net': Network, g': Agents) {
    && net.next <= net'.next
    && (forall n :: n < net.next && n in net'.inflight ==> n in net.inflight && net'.inflight[n] == net.inflight[n])
    && (forall n :: n < net.next && n in net'.replies ==>
          || net'.replies[n].ErrorReply?
          || (n in net.replies && net'.replies[n] == net.replies[n])
          || (n in net.inflight && (net.inflight[n].SendMessage? ==>
                TaskOf(g', net.inflight[n].action, net'.replies[n].task.id))))
  }

  /** What an attempt knows survives any growth around it. */
  lemma AttemptSurvives(j: Journal, net: Network, g: Agents, j': Journal, net': Network, g': Agents, t: Attempt)
    requires AttemptOk(j, net, g, t)
    requires JournalGrows(j, j') && AgentsGrow(g, g') && NetworkGrows(net, net', g')
    ensures AttemptOk(j', net', g', t)
  {
  }

  lemma AttemptsSurvive(j: Journal, net: Network, g: Agents, j': Journal, net': Network, g': Agents,
      attempts: map<nat, Attempt>)
    requires AttemptsOk(j, net, g, attempts)
    requires JournalGrows(j, j') && AgentsGrow(g, g') && NetworkGrows(net, net', g')
    ensures AttemptsOk(j', net', g', attempts)
  {
    forall a | a in attempts ensures AttemptOk(j', net', g', attempts[a]) {
      AttemptSurvives(j, net, g, j', net', g', attempts[a]);
    }
  }

  /** Moving one attempt, without making it a sender, keeps everything. */
  lemma MoveKeepsInv(w: World, a: nat, pc: Pc)
    requires Inv(w) && a in w.attempts
    requires AttemptOk(w.journal, w.net, w.agents, w.attempts[a].(pc := pc))
    requires Sender(pc) ==> Sender(w.attempts[a].pc)
    ensures Inv(SetPc(w, a, pc))
  {
    hide JournalOk, NetworkOk, AgentsOk, TrafficOk, AttemptOk;
    var w' := SetPc(w, a, pc);
    assert forall b, id :: MaySend(w'.attempts, b, id) ==> MaySend(w.attempts, b, id);
    forall id | id in w.journal.rows && w.journal.rows[id].binding.receiver.Opaque?
      ensures OneSender(w'.attempts, w'.sent, id)
    {
      assert OneSender(w.attempts, w.sent, id);
    }
  }
}
