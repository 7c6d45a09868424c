/** Durable A2A dispatch as a step relation: the attempt loop of
    prototype/temporal-factory/src/adapter.py (`_invoke_async`, `_finish`), the statements of
    `OutcomeJournal` (src/a2a_outcome.py) one SQL statement at a time, a lossy network, and agents
    that accept Messages as `Ledger.accept` (services/model_agent.py) or, when not idempotent, as
    the opaque release receiver does. Any number of attempts overlap, crash and are retried. */
module Dispatch {
  import opened Prelude
  import opened Outcome

  /** What happens to a StaleOutcome raised by the put that journals a Task id.
      AsWritten: `except Exception` in adapter.py turns it into an incident.
      PassesThrough: it reaches the outer handler, as in src/release_delivery.py. */
  datatype Variant = AsWritten | PassesThrough

  /** The arguments of one `_invoke_async` call. */
  datatype Input = Input(
    actionId: string, runId: string, definitionDigest: string,
    mode: Receiver, parts: string, identity: string)

  datatype TaskState = TaskSubmitted | TaskWorking | TaskCompleted | TaskEnded | TaskUnreadable

  datatype Part = TextPart(text: string) | OtherPart
  type Artifact = seq<Part>

  /** A Task as one reply carries it. */
  datatype Snapshot = Snapshot(id: string, contextId: string, state: TaskState, artifacts: seq<Artifact>)

  /** A Task in an agent's ledger. `origin` is the action whose Message created it. */
  datatype TaskRow = TaskRow(
    identity: string, origin: string, messageId: string, contextId: string, parts: string,
    state: TaskState, artifacts: seq<Artifact>)

  datatype Packet =
    | SendMessage(action: string, identity: string, messageId: string, contextId: string, parts: string)
    | GetTask(action: string, identity: string, taskId: string)

  datatype Reply = TaskReply(task: Snapshot) | ErrorReply

  datatype Answer =
    | Returned(receipt: Option<Receipt>)
    | Unresolved(reason: Option<string>, actionId: string, taskId: Option<string>)
    | Pending
    | Raised

  /** What an attempt does once its put has succeeded. */
  datatype After =
    | Finishing                 // return the record's receipt or its unresolved outcome
    | Resume                    // participating receiver, uncertain send: loop and resend
    | OpaqueUnknown             // opaque receiver, uncertain send: a second put ends in an incident
    | TaskKnown(task: Snapshot) // the Task id is journaled: finish or poll

  /** Where an attempt stands, with its local `record` and `created`. */
  datatype Pc =
    | Fresh
    | Contexted(contextId: string)
    | Inserted(created: bool)
    | Looping(record: OutcomeRecord, created: bool)
    | AwaitSend(record: OutcomeRecord, created: bool, request: nat)
    | Polling(record: OutcomeRecord)
    | AwaitGet(record: OutcomeRecord, request: nat)
    | Putting(next: OutcomeRecord, after: After)
    | Swapping(next: OutcomeRecord, prior: OutcomeRecord, after: After)
    | Rereading
    | Done(answer: Answer)
    | Crashed

  datatype Attempt = Attempt(input: Input, pc: Pc)

  /** The outcome journal: its rows, every committed version of each row (oldest first), and the
      contextId of each run and agent. */
  datatype Journal = Journal(
    rows: map<string, OutcomeRecord>,
    history: map<string, seq<OutcomeRecord>>,
    contexts: map<(string, string), string>)

  datatype Network = Network(inflight: map<nat, Packet>, replies: map<nat, Reply>, next: nat)

  /** All agents' Tasks by Task id; for agents that deduplicate, the Task of each (identity, messageId);
      and whether some agent was sent a known messageId with different content. */
  datatype Agents = Agents(
    tasks: map<string, TaskRow>,
    accepted: map<(string, string), string>,
    idempotent: set<string>,
    conflict: bool)

  /** `used` holds every UUID handed out; `sent` counts SendMessage requests per action. */
  datatype World = World(
    journal: Journal, attempts: map<nat, Attempt>, net: Network, agents: Agents,
    used: set<string>, sent: map<string, nat>)

  datatype Event =
    | Start(a: nat, input: Input)
    | BindContext(a: nat, uuid: string)
    | Insert(a: nat, uuid: string)
    | ReadBack(a: nat)
    | Deadline(a: nat)
    | PinFailed(a: nat)
    | CapabilityMissing(a: nat)
    | Verified(a: nat)
    | EmitGet(a: nat)
    | Timeout(a: nat)
    | Receive(a: nat, at: string)
    | PutSelect(a: nat)
    | PutUpdate(a: nat, at: string)
    | Reread(a: nat)
    | Crash(a: nat)
    | Deliver(request: nat, uuid: string)
    | Refuse(request: nat)
    | Garble(request: nat)
    | Lose(request: nat)
    | Progress(taskId: string, state: TaskState, artifacts: seq<Artifact>)

  /** Digest of a Message's content: injective, as assumed of SHA-256. */
  function PayloadSha256(parts: string): string { "sha256:" + parts }

  function Submission(input: Input, messageId: string, contextId: string): Result<OutcomeRecord> {
    NewRecord(Binding(input.actionId, input.runId, input.definitionDigest, input.mode, A2A, None, None, 3,
                      Some(PayloadSha256(input.parts)), Some(input.identity), Some(messageId), Some(contextId)))
  }

  /** `begin`'s comparison: an agent assignment keeps the journaled messageId and contextId. */
  predicate SameBinding(row: Binding, input: Input) {
    && row.runId == input.runId && row.definitionDigest == input.definitionDigest
    && row.receiver == input.mode && row.effectKind.A2A? && row.revision.None? && row.sha256.None?
    && row.payloadSha256 == Some(PayloadSha256(input.parts))
    && row.pinnedIdentity == Some(input.identity)
  }

  function UnresolvedAnswer(r: OutcomeRecord): Answer {
    Unresolved(r.reason, r.binding.actionId, r.taskId)
  }

  function Decided(r: OutcomeRecord): Answer {
    if r.phase.Confirmed? then Returned(r.receipt) else UnresolvedAnswer(r)
  }

  /** A transition that raises ends the attempt; otherwise its record is put. */
  function PutOrRaise(next: Result<OutcomeRecord>, after: After): Pc {
    match next case Success(r) => Putting(r, after) case Failure(_) => Done(Raised)
  }

  /** adapter.py:134-146. */
  function Decide(input: Input, record: OutcomeRecord, created: bool): Pc {
    if record.Terminal() then Done(Decided(record))
    else if record.binding.messageId.None? || record.binding.contextId.None? then
      PutOrRaise(TaskIncident(record, "a2a-correlation-missing"), Finishing)
    else if record.taskId.None? && !created && input.mode.Opaque? then
      PutOrRaise(TaskIncident(record, "opaque-effect-unknown"), Finishing)
    else Looping(record, created)
  }

  /** `validate_async_task`: the state, when the Task carries the journaled correlation. */
  function ValidateAsyncTask(task: Snapshot, contextId: Option<string>, taskId: Option<string>): Option<TaskState> {
    if task.id == "" || (taskId.Some? && task.id != taskId.value) || Some(task.contextId) != contextId
      || task.state.TaskUnreadable? then None
    else Some(task.state)
  }

  /** The most artifacts one hand-off may carry (src/handoff.py:33). */
  const MAX_ITEMS := 256

  /** `_completed_receipt`: an absent artifact or an artifact without a Part is missing output; anything
      but one artifact with one text Part is inconsistent. `at` is the time read when producing it. */
  function CompletedReceipt(task: Snapshot, r: OutcomeRecord, at: string): Result<Receipt> {
    if task.artifacts == [] then Failure("output.missing")
    else if |task.artifacts| > MAX_ITEMS then Failure("async-artifact-inconsistent")
    else if [] in task.artifacts then Failure("output.missing")
    else if ValidateAsyncTask(task, r.binding.contextId, r.taskId) != Some(TaskCompleted)
      || |task.artifacts| != 1 || |task.artifacts[0]| != 1 || !task.artifacts[0][0].TextPart? then
      Failure("async-artifact-inconsistent")
    else
      Success(Receipt(Str(r.binding.actionId), Str(r.binding.runId), Str(r.binding.definitionDigest),
                      Str(task.id), Null, Null, Null, AsValue(r.binding.messageId), Null, Null,
                      [task.artifacts[0][0].text, at, task.contextId,
                       if r.binding.pinnedIdentity.Some? then r.binding.pinnedIdentity.value else ""]))
  }

  /** `_finish`. */
  function Finish(r: OutcomeRecord, task: Snapshot, at: string): Pc {
    PutOrRaise(match CompletedReceipt(task, r, at)
               case Success(receipt) => TaskFinished(r, receipt)
               case Failure(reason) => TaskIncident(r, reason),
               Finishing)
  }

  /** adapter.py:171-196: a send's reply. */
  function AfterSend(r: OutcomeRecord, reply: Reply): Pc {
    if reply.TaskReply? && ValidateAsyncTask(reply.task, r.binding.contextId, None).Some? then
      PutOrRaise(TaskStarted(r, Str(reply.task.id)), TaskKnown(reply.task))
    else
      PutOrRaise(TaskIncident(r, "async-send-binding-inconsistent"), Finishing)
  }

  /** adapter.py:180-190: a send whose outcome is uncertain. */
  function AfterUncertainSend(input: Input, r: OutcomeRecord): Pc {
    if r.phase.Submitted? then
      PutOrRaise(SendAmbiguous(r), if input.mode.Opaque? then OpaqueUnknown else Resume)
    else if input.mode.Opaque? then
      PutOrRaise(TaskIncident(r, "opaque-effect-unknown"), Finishing)
    else Looping(r, false)
  }

  /** adapter.py:200-223: a poll's reply. */
  function AfterGet(r: OutcomeRecord, reply: Reply, at: string): Pc {
    if reply.TaskReply? then
      match ValidateAsyncTask(reply.task, r.binding.contextId, r.taskId)
      case Some(TaskCompleted) => Finish(r, reply.task, at)
      case Some(TaskEnded) => PutOrRaise(TaskIncident(r, "async-task-terminal-without-artifact"), Finishing)
      case Some(_) => Looping(r, false)
      case None => PutOrRaise(TaskIncident(r, "async-task-binding-inconsistent"), Finishing)
    else PutOrRaise(TaskIncident(r, "async-task-binding-inconsistent"), Finishing)
  }

  /** `put`'s test of the row it selected. */
  predicate Admissible(prior: OutcomeRecord, next: OutcomeRecord) {
    !prior.Terminal() && prior.sequence + 1 == next.sequence && next.expectedPhase == Some(prior.phase)
  }

  /** A put that raised StaleOutcome. */
  function AfterStale(v: Variant, next: OutcomeRecord, after: After): Pc {
    if after.TaskKnown? && v.AsWritten? then
      PutOrRaise(TaskIncident(next, "async-send-binding-inconsistent"), Finishing)
    else Rereading
  }

  /** A put that committed. */
  function AfterPut(next: OutcomeRecord, after: After, at: string): Pc {
    match after
    case Finishing => Done(Decided(next))
    case Resume => Looping(next, false)
    case OpaqueUnknown => PutOrRaise(TaskIncident(next, "opaque-effect-unknown"), Finishing)
    case TaskKnown(task) => if task.state.TaskCompleted? then Finish(next, task, at) else Polling(next)
  }

  function SetPc(w: World, a: nat, pc: Pc): World
    requires a in w.attempts
  {
    w.(attempts := w.attempts[a := w.attempts[a].(pc := pc)])
  }

  /** A row takes a new version. */
  function Commit(j: Journal, next: OutcomeRecord): Journal
    requires next.binding.actionId in j.history
  {
    var id := next.binding.actionId;
    j.(rows := j.rows[id := next], history := j.history[id := j.history[id] + [next]])
  }

  /** `INSERT OR IGNORE` of a fresh row. */
  function InsertRow(j: Journal, row: OutcomeRecord): Journal {
    var id := row.binding.actionId;
    if id in j.rows then j else j.(rows := j.rows[id := row], history := j.history[id := [row]])
  }

  /** `context_for`. */
  function BindContextRow(j: Journal, key: (string, string), uuid: string): Journal {
    if key in j.contexts then j else j.(contexts := j.contexts[key := uuid])
  }

  function Emit(net: Network, p: Packet): Network {
    net.(inflight := net.inflight[net.next := p], next := net.next + 1)
  }

  function Answered(net: Network, n: nat, reply: Reply): Network {
    net.(inflight := net.inflight - {n}, replies := net.replies[n := reply])
  }

  function Sent(sent: map<string, nat>, action: string): nat {
    if action in sent then sent[action] else 0
  }

  function SnapshotOf(id: string, row: TaskRow): Snapshot {
    Snapshot(id, row.contextId, row.state, row.artifacts)
  }

  // One attempt's own steps. A disabled event leaves the world as it is.

  /** adapter.py:127 and `OutcomeJournal.context_for`. */
  function BindContextStep(w: World, a: nat, uuid: string): World
    requires a in w.attempts
  {
    var t := w.attempts[a];
    if t.pc != Fresh || uuid in w.used || uuid == "" then w
    else if t.input.runId == "" || t.input.identity == "" then SetPc(w, a, Done(Raised))
    else
      var key := (t.input.runId, t.input.identity);
      var journal := BindContextRow(w.journal, key, uuid);
      SetPc(w.(journal := journal, used := w.used + {uuid}), a, Contexted(journal.contexts[key]))
  }

  /** adapter.py:128-132 and the INSERT of `OutcomeJournal.begin`. */
  function InsertStep(w: World, a: nat, uuid: string): World
    requires a in w.attempts
  {
    var t := w.attempts[a];
    if !t.pc.Contexted? || uuid in w.used || uuid == "" then w
    else match Submission(t.input, uuid, t.pc.contextId)
      case Failure(_) => SetPc(w, a, Done(Raised))
      case Success(row) =>
        SetPc(w.(journal := InsertRow(w.journal, row), used := w.used + {uuid}), a,
              Inserted(t.input.actionId !in w.journal.rows))
  }

  /** The read and comparison of `OutcomeJournal.begin`, then adapter.py:134-145. */
  function ReadBackStep(w: World, a: nat): World
    requires a in w.attempts
  {
    var t := w.attempts[a];
    var id := t.input.actionId;
    if !t.pc.Inserted? || id !in w.journal.rows then w
    else if !SameBinding(w.journal.rows[id].binding, t.input) then SetPc(w, a, Done(Raised))
    else SetPc(w, a, Decide(t.input, w.journal.rows[id], t.pc.created))
  }

  /** A pin verifies only if a contract that declares idempotent resend names an agent that has it
      (src/agent_binding.py:119-124). */
  predicate Honest(g: Agents, input: Input) {
    input.mode.Participating? ==> input.identity in g.idempotent
  }

  /** A pin that fails (adapter.py:153-158) or a capability that is missing (:159-163). */
  function IncidentStep(w: World, a: nat, reason: string): World
    requires a in w.attempts
  {
    var t := w.attempts[a];
    if t.pc.Looping? then SetPc(w, a, PutOrRaise(TaskIncident(t.pc.record, reason), Finishing)) else w
  }

  /** A verified pin: send (adapter.py:167-172) or go on to poll. */
  function VerifiedStep(w: World, a: nat): World
    requires a in w.attempts
  {
    var t := w.attempts[a];
    if !t.pc.Looping? || !Honest(w.agents, t.input) then w
    else
      var b := t.pc.record.binding;
      if t.pc.record.taskId.Some? then SetPc(w, a, Polling(t.pc.record))
      else if b.messageId.None? || b.contextId.None? then w
      else
        var id := t.input.actionId;
        var packet := SendMessage(id, t.input.identity, b.messageId.value, b.contextId.value, t.input.parts);
        SetPc(w.(net := Emit(w.net, packet), sent := w.sent[id := Sent(w.sent, id) + 1]),
              a, AwaitSend(t.pc.record, t.pc.created, w.net.next))
  }

  /** adapter.py:202. */
  function EmitGetStep(w: World, a: nat): World
    requires a in w.attempts
  {
    var t := w.attempts[a];
    if !t.pc.Polling? || t.pc.record.taskId.None? then w
    else SetPc(w.(net := Emit(w.net, GetTask(t.input.actionId, t.input.identity, t.pc.record.taskId.value))),
               a, AwaitGet(t.pc.record, w.net.next))
  }

  function TimeoutStep(w: World, a: nat): World
    requires a in w.attempts
  {
    var t := w.attempts[a];
    if t.pc.AwaitSend? then SetPc(w, a, AfterUncertainSend(t.input, t.pc.record))
    else if t.pc.AwaitGet? then SetPc(w, a, Looping(t.pc.record, false))
    else w
  }

  function ReceiveStep(w: World, a: nat, at: string): World
    requires a in w.attempts
  {
    var t := w.attempts[a];
    if t.pc.AwaitSend? && t.pc.request in w.net.replies then
      SetPc(w, a, AfterSend(t.pc.record, w.net.replies[t.pc.request]))
    else if t.pc.AwaitGet? && t.pc.request in w.net.replies then
      SetPc(w, a, AfterGet(t.pc.record, w.net.replies[t.pc.request], at))
    else w
  }

  /** The SELECT and test of `OutcomeJournal.put`. */
  function PutSelectStep(v: Variant, w: World, a: nat): World
    requires a in w.attempts
  {
    var t := w.attempts[a];
    if !t.pc.Putting? then w
    else
      var id := t.pc.next.binding.actionId;
      if id !in w.journal.rows then SetPc(w, a, Done(Raised))
      else if Admissible(w.journal.rows[id], t.pc.next) then
        SetPc(w, a, Swapping(t.pc.next, w.journal.rows[id], t.pc.after))
      else SetPc(w, a, AfterStale(v, t.pc.next, t.pc.after))
  }

  /** The UPDATE of `OutcomeJournal.put`, which compares the whole stored value. */
  function PutUpdateStep(v: Variant, w: World, a: nat, at: string): World
    requires a in w.attempts
  {
    var t := w.attempts[a];
    if !t.pc.Swapping? then w
    else
      var id := t.pc.next.binding.actionId;
      if id in w.journal.rows && id in w.journal.history && w.journal.rows[id] == t.pc.prior then
        SetPc(w.(journal := Commit(w.journal, t.pc.next)), a, AfterPut(t.pc.next, t.pc.after, at))
      else SetPc(w, a, AfterStale(v, t.pc.next, t.pc.after))
  }

  /** adapter.py:225-231. */
  function RereadStep(w: World, a: nat): World
    requires a in w.attempts
  {
    var t := w.attempts[a];
    var id := t.input.actionId;
    if !t.pc.Rereading? || id !in w.journal.rows then w
    else SetPc(w, a, Done(if w.journal.rows[id].Terminal() then Decided(w.journal.rows[id]) else Pending))
  }

  function AttemptStep(v: Variant, w: World, e: Event): World
    requires OfAttempt(e) && e.a in w.attempts
  {
    match e
    case BindContext(a, uuid) => BindContextStep(w, a, uuid)
    case Insert(a, uuid) => InsertStep(w, a, uuid)
    case ReadBack(a) => ReadBackStep(w, a)
    case Deadline(a) => if w.attempts[a].pc.Looping? then SetPc(w, a, Done(Pending)) else w
    case PinFailed(a) => IncidentStep(w, a, "pinned-agent-verification-failed")
    case CapabilityMissing(a) =>
      if Honest(w.agents, w.attempts[a].input) then IncidentStep(w, a, "pinned-agent-capability-mismatch") else w
    case Verified(a) => VerifiedStep(w, a)
    case EmitGet(a) => EmitGetStep(w, a)
    case Timeout(a) => TimeoutStep(w, a)
    case Receive(a, at) => ReceiveStep(w, a, at)
    case PutSelect(a) => PutSelectStep(v, w, a)
    case PutUpdate(a, at) => PutUpdateStep(v, w, a, at)
    case Reread(a) => RereadStep(w, a)
    case Crash(a) => if w.attempts[a].pc.Done? then w else SetPc(w, a, Crashed)
  }

  predicate OfAttempt(e: Event) {
    !e.Start? && !e.Deliver? && !e.Refuse? && !e.Garble? && !e.Lose? && !e.Progress?
  }

  /** What an agent makes of one request, and its answer. `uuid` names the Task if a new one is made. */
  function Handle(g: Agents, p: Packet, uuid: string): (Agents, Reply) {
    match p
    case GetTask(_, identity, taskId) =>
      if taskId in g.tasks && g.tasks[taskId].identity == identity
      then (g, TaskReply(SnapshotOf(taskId, g.tasks[taskId]))) else (g, ErrorReply)
    case SendMessage(action, identity, messageId, contextId, parts) =>
      var key := (identity, messageId);
      if identity in g.idempotent && key in g.accepted && g.accepted[key] in g.tasks then
        var row := g.tasks[g.accepted[key]];
        if row.contextId != contextId || row.parts != parts then (g.(conflict := true), ErrorReply)
        else (g, TaskReply(SnapshotOf(g.accepted[key], row)))
      else
        var row := TaskRow(identity, action, messageId, contextId, parts, TaskWorking, []);
        (g.(tasks := g.tasks[uuid := row],
            accepted := if identity in g.idempotent then g.accepted[key := uuid] else g.accepted),
         TaskReply(SnapshotOf(uuid, row)))
  }

  function Serve(w: World, n: nat, uuid: string): World
    requires n in w.net.inflight
  {
    var handled := Handle(w.agents, w.net.inflight[n], uuid);
    w.(net := Answered(w.net, n, handled.1), agents := handled.0, used := w.used + {uuid})
  }

  function Step(v: Variant, w: World, e: Event): World {
    match e
    case Start(a, input) =>
      if a in w.attempts then w
      else w.(attempts := w.attempts[a := Attempt(input, Fresh)])
    case Deliver(n, uuid) =>
      if n in w.net.inflight && uuid !in w.used && uuid != "" then Serve(w, n, uuid) else w
    case Refuse(n) => if n in w.net.inflight then w.(net := Answered(w.net, n, ErrorReply)) else w
    case Garble(n) =>
      if n in w.net.replies then w.(net := w.net.(replies := w.net.replies[n := ErrorReply])) else w
    case Lose(n) => w.(net := w.net.(inflight := w.net.inflight - {n}))
    case Progress(taskId, state, artifacts) =>
      if taskId in w.agents.tasks
      then w.(agents := w.agents.(tasks := w.agents.tasks[taskId :=
                w.agents.tasks[taskId].(state := state, artifacts := artifacts)]))
      else w
    case _ => if e.a in w.attempts then AttemptStep(v, w, e) else w
  }

  /** A whole run: any interleaving of attempts, network and agents. */
  function Run(v: Variant, w: World, events: seq<Event>): World
    decreases |events|
  {
    if events == [] then w else Run(v, Step(v, w, events[0]), events[1..])
  }

  function Initial(idempotent: set<string>): World {
    World(Journal(map[], map[], map[]), map[], Network(map[], map[], 0),
          Agents(map[], map[], idempotent, false), {}, map[])
  }
}
