/** An agent's durable ledger and the service that works its Tasks:
    prototype/temporal-factory/services/model_agent.py (`Ledger`, `Service.work`). */
module AgentLedger {
  import opened Prelude

  datatype TaskState = Working | Completed | Failed

  datatype Artifact = Artifact(revision: string, sha256: string, content: string)

  /** A Message's content; the ledger keeps its digest as the Task's fingerprint. */
  datatype Content = Content(brief: string, budget: string, contextId: Option<string>, inputs: string)

  datatype Request = Request(messageId: string, content: Content)

  datatype TaskRow = TaskRow(
    taskId: string, contextId: string, messageId: string, fingerprint: Content, state: TaskState,
      artifact: Option<Artifact>)

  /** A row of `model_calls`; its id is its place in the table. */
  datatype CallRow = CallRow(taskId: string, number: nat, outcome: Option<string>)

  datatype Claim = Claim(id: string, text: string, evidence: seq<string>)

  datatype Revisions = AllRevisions | Only(revisions: seq<string>)

  /** A row of `test_stimulus`; its id is its place in the table. */
  datatype Stimulus = Stimulus(text: string, evidence: seq<string>, revisions: Revisions, boundContext: Option<string>)

  /** A row of `test_stimulus_log`. */
  datatype LogRow = LogRow(
    stimulusId: nat, contextId: string, revision: string, taskId: string, planted: string, sha256: string,
      content: string)

  datatype Ledger = Ledger(
    tasks: seq<TaskRow>, calls: seq<CallRow>, stimuli: seq<Stimulus>, log: seq<LogRow>, testControls: bool)

  const MAX_CALLS := 3

  function TaskOfMessage(l: Ledger, messageId: string): Option<nat> {
    Find(l.tasks, (r: TaskRow) => r.messageId == messageId)
  }

  function TaskAt(l: Ledger, taskId: string): Option<nat> {
    Find(l.tasks, (r: TaskRow) => r.taskId == taskId)
  }

  /** `bound_context_id IS NULL ORDER BY id LIMIT 1`. */
  function Unbound(l: Ledger): Option<nat> {
    Find(l.stimuli, (s: Stimulus) => s.boundContext.None?)
  }

  function BoundTo(l: Ledger, contextId: string): Option<nat> {
    Find(l.stimuli, (s: Stimulus) => s.boundContext == Some(contextId))
  }

  predicate KnowsContext(l: Ledger, contextId: string) {
    exists k :: 0 <= k < |l.tasks| && l.tasks[k].contextId == contextId
  }

  /** An armed stimulus binds to the first context the agent has not seen. */
  function BindStimulus(l: Ledger, contextId: string): seq<Stimulus> {
    var pending := Unbound(l);
    if l.testControls && !KnowsContext(l, contextId) && pending.Some?
    then l.stimuli[pending.value := l.stimuli[pending.value].(boundContext := Some(contextId))]
    else l.stimuli
  }

  /** `accept`: a known messageId returns its Task, or is refused with other content. `taskId` and `newContext` are
      the caller's fresh UUIDs. */
  function Accept(l: Ledger, r: Request, taskId: string, newContext: string): (Result<(string, bool)>, Ledger) {
    match TaskOfMessage(l, r.messageId)
    case Some(k) =>
      if l.tasks[k].fingerprint != r.content then (Failure("messageId reused with a different message"), l)
      else (Success((l.tasks[k].taskId, false)), l)
    case None =>
      if TaskAt(l, taskId).Some? then (Failure("UNIQUE constraint failed: tasks.task_id"), l)
      else
        var given := r.content.contextId;
        var contextId := if given.Some? && given.value != "" then given.value else newContext;
        (Success((taskId, true)),
         l.(tasks := l.tasks + [TaskRow(taskId, contextId, r.messageId, r.content, Working, None)],
            stimuli := BindStimulus(l, contextId)))
  }

  function SameLogKey(a: LogRow, b: LogRow): bool {
    a.stimulusId == b.stimulusId && a.taskId == b.taskId && a.revision == b.revision
  }

  /** `INSERT OR IGNORE` into the log. */
  function Logged(log: seq<LogRow>, row: LogRow): seq<LogRow> {
    if Find(log, (x: LogRow) => SameLogKey(x, row)).Some? then log else log + [row]
  }

  /** The stimulus part of `finish`: the log with the row, or why the transaction raises. */
  function LogAfter(log: seq<LogRow>, taskId: string, artifact: Option<Artifact>,
      stimulus: LogRow): Result<seq<LogRow>> {
    if artifact.None? || artifact.value.sha256 != stimulus.sha256 then Failure("stimulus artifact digest mismatch")
    else
      var rows := Logged(log, stimulus);
      match Find(rows, (x: LogRow) => SameLogKey(x, stimulus.(taskId := taskId)))
      case None => Failure("recovered stimulus content mismatch")
      case Some(k) =>
        if rows[k].sha256 != artifact.value.sha256 || rows[k].content != artifact.value.content
        then Failure("recovered stimulus content mismatch") else Success(rows)
  }

  /** The Task as `finish` leaves it. */
  function Settled(row: TaskRow, artifact: Option<Artifact>): TaskRow {
    row.(state := if artifact.Some? then Completed else Failed, artifact := artifact)
  }

  /** `finish`: one transaction, rolled back whole if it raises. */
  function Finish(l: Ledger, taskId: string, artifact: Option<Artifact>, stimulus: Option<LogRow>): (Result<()>,
      Ledger) {
    match if stimulus.Some? then LogAfter(l.log, taskId, artifact, stimulus.value) else Success(l.log)
    case Failure(error) => (Failure(error), l)
    case Success(log) =>
      match TaskAt(l, taskId)
      case None => (Failure("Task is no longer working"), l)
      case Some(k) =>
        if !l.tasks[k].state.Working? then (Failure("Task is no longer working"), l)
        else
          (Success(()),
           l.(log := log, tasks := l.tasks[k := Settled(l.tasks[k], artifact)]))
  }

  /** `SELECT COUNT(*) FROM model_calls WHERE task_id=?`. */
  function CallCount(calls: seq<CallRow>, taskId: string): nat {
    if calls == [] then 0
    else CallCount(calls[..|calls| - 1], taskId) + if calls[|calls| - 1].taskId == taskId then 1 else 0
  }

  /** `call_start`. */
  function CallStart(l: Ledger, taskId: string): (Result<nat>, Ledger) {
    var number := CallCount(l.calls, taskId) + 1;
    if number > MAX_CALLS then (Failure("model call budget exhausted"), l)
    else (Success(|l.calls|), l.(calls := l.calls + [CallRow(taskId, number, None)]))
  }

  /** `call_end`. */
  function CallEnd(l: Ledger, call: nat, outcome: string): Ledger {
    if call < |l.calls| then l.(calls := l.calls[call := l.calls[call].(outcome := Some(outcome))]) else l
  }

  /** The tests of `arm` on its body. */
  predicate ValidStimulus(text: string, evidence: seq<string>, revisions: Revisions) {
    && !Blank(text) && evidence != [] && "" !in evidence
    && (revisions.Only? ==> revisions.revisions != [] && forall r :: r in revisions.revisions ==>
          r != "" && r[0] == 'r')
  }

  /** `arm`. */
  function Arm(l: Ledger, text: string, evidence: seq<string>, revisions: Revisions): (Result<nat>, Ledger) {
    if !l.testControls then (Failure("test controls are not enabled"), l)
    else if !ValidStimulus(text, evidence, revisions) then (Failure("invalid stimulus"), l)
    else if Unbound(l).Some? then (Failure("a stimulus is already armed"), l)
    else (Success(|l.stimuli|), l.(stimuli := l.stimuli + [Stimulus(text, evidence, revisions, None)]))
  }

  datatype Op =
    | Accepting(request: Request, taskId: string, newContext: string)
    | Finishing(taskId: string, artifact: Option<Artifact>, stimulus: Option<LogRow>)
    | StartingCall(taskId: string)
    | EndingCall(call: nat, outcome: string)
    | Arming(text: string, evidence: seq<string>, revisions: Revisions)

  function Apply(l: Ledger, op: Op): Ledger {
    match op
    case Accepting(request, taskId, newContext) => Accept(l, request, taskId, newContext).1
    case Finishing(taskId, artifact, stimulus) => Finish(l, taskId, artifact, stimulus).1
    case StartingCall(taskId) => CallStart(l, taskId).1
    case EndingCall(call, outcome) => CallEnd(l, call, outcome)
    case Arming(text, evidence, revisions) => Arm(l, text, evidence, revisions).1
  }

  /** Any transactions in any order: workers that overlap, restart or are killed between two of them. */
  function Run(l: Ledger, ops: seq<Op>): Ledger
    decreases |ops|
  {
    if ops == [] then l else Run(Apply(l, ops[0]), ops[1..])
  }

  function NewLedger(testControls: bool): Ledger { Ledger([], [], [], [], testControls) }

  // What every transaction keeps.

  predicate TaskOk(r: TaskRow) { r.artifact.Some? <==> r.state.Completed? }

  predicate Apart(a: TaskRow, b: TaskRow) { a.taskId != b.taskId && a.messageId != b.messageId }

  ghost predicate TasksOk(l: Ledger) {
    && (forall k :: 0 <= k < |l.tasks| ==> TaskOk(l.tasks[k]))
    && (forall i, k :: 0 <= i < k < |l.tasks| ==> Apart(l.tasks[i], l.tasks[k]))
  }

  /** Calls of one Task are numbered 1, 2, 3 in order. */
  ghost predicate CallsOk(l: Ledger) {
    forall k :: 0 <= k < |l.calls| ==> l.calls[k].number == CallCount(l.calls[..k + 1], l.calls[k].taskId) <= MAX_CALLS
  }

  /** A context has at most one stimulus, and only a context some Task has; at most one stimulus is armed. */
  ghost predicate StimuliOk(l: Ledger) {
    && (forall i, k :: 0 <= i < k < |l.stimuli| ==> l.stimuli[i].boundContext != l.stimuli[k].boundContext)
    && (forall k :: 0 <= k < |l.stimuli| && l.stimuli[k].boundContext.Some? ==>
          KnowsContext(l, l.stimuli[k].boundContext.value))
  }

  /** The log row tells what its Task, completed, serves. */
  ghost predicate LogRowOk(l: Ledger, row: LogRow) {
    exists k :: 0 <= k < |l.tasks| && Serves(l.tasks[k], row)
  }

  predicate Serves(t: TaskRow, row: LogRow) {
    && t.taskId == row.taskId && t.state.Completed? && t.artifact.Some?
    && t.artifact.value.sha256 == row.sha256 && t.artifact.value.content == row.content
  }

  ghost predicate LogOk(l: Ledger) {
    && (forall k :: 0 <= k < |l.log| ==> LogRowOk(l, l.log[k]))
    && (forall i, k :: 0 <= i < k < |l.log| ==> l.log[i].taskId != l.log[k].taskId)
  }

  ghost predicate Inv(l: Ledger) {
    TasksOk(l) && CallsOk(l) && StimuliOk(l) && LogOk(l)
  }

  /** A Task leaves "working" at most once, and then never changes. */
  predicate TaskGrows(r: TaskRow, r': TaskRow) {
    && r'.(state := r.state, artifact := r.artifact) == r
    && (!r.state.Working? ==> r' == r)
  }

  ghost predicate Grows(l: Ledger, l': Ledger) {
    && |l.tasks| <= |l'.tasks| && (forall k :: 0 <= k < |l.tasks| ==> TaskGrows(l.tasks[k], l'.tasks[k]))
    && |l.stimuli| <= |l'.stimuli|
    && (forall k :: 0 <= k < |l.stimuli| && l.stimuli[k].boundContext.Some? ==> l'.stimuli[k] == l.stimuli[k])
    && l.log <= l'.log && |l.calls| <= |l'.calls|
  }

  lemma SameLedger(l: Ledger)
    ensures Grows(l, l)
  {
  }

  lemma NewLedgerInv(testControls: bool)
    ensures Inv(NewLedger(testControls))
  {
  }

  lemma LogRowStays(l: Ledger, l': Ledger, row: LogRow)
    requires LogRowOk(l, row) && |l.tasks| <= |l'.tasks| && forall k :: 0 <= k < |l.tasks| ==>
      TaskGrows(l.tasks[k], l'.tasks[k])
    ensures LogRowOk(l', row)
  {
    var k :| 0 <= k < |l.tasks| && Serves(l.tasks[k], row);
    assert TaskGrows(l.tasks[k], l'.tasks[k]) && Serves(l'.tasks[k], row);
  }

  lemma ContextStays(l: Ledger, l': Ledger, contextId: string)
    requires KnowsContext(l, contextId) && |l.tasks| <= |l'.tasks|
    requires forall k :: 0 <= k < |l.tasks| ==> TaskGrows(l.tasks[k], l'.tasks[k])
    ensures KnowsContext(l', contextId)
  {
    var k :| 0 <= k < |l.tasks| && l.tasks[k].contextId == contextId;
    assert TaskGrows(l.tasks[k], l'.tasks[k]) && l'.tasks[k].contextId == contextId;
  }

  lemma AcceptKeeps(l: Ledger, r: Request, taskId: string, newContext: string)
    requires Inv(l)
    ensures Inv(Accept(l, r, taskId, newContext).1) && Grows(l, Accept(l, r, taskId, newContext).1)
  {
    var l' := Accept(l, r, taskId, newContext).1;
    if l' != l {
      var contextId := l'.tasks[|l.tasks|].contextId;
      forall k | 0 <= k < |l.tasks|
        ensures Apart(l.tasks[k], l'.tasks[|l.tasks|]) && TaskGrows(l.tasks[k], l'.tasks[k]) {}
      forall k | 0 <= k < |l'.log| ensures LogRowOk(l', l'.log[k]) { LogRowStays(l, l', l.log[k]); }
      BindKeeps(l, l', contextId);
    }
  }

  lemma BindKeeps(l: Ledger, l': Ledger, contextId: string)
    requires StimuliOk(l) && l'.stimuli == BindStimulus(l, contextId)
    requires |l'.tasks| == |l.tasks| + 1 && l'.tasks[|l.tasks|].contextId == contextId
    requires forall k :: 0 <= k < |l.tasks| ==> TaskGrows(l.tasks[k], l'.tasks[k])
    ensures StimuliOk(l') && |l.stimuli| == |l'.stimuli|
    ensures forall k :: 0 <= k < |l.stimuli| && l.stimuli[k].boundContext.Some? ==> l'.stimuli[k] == l.stimuli[k]
  {
    assert KnowsContext(l', contextId);
    forall k | 0 <= k < |l'.stimuli| && l'.stimuli[k].boundContext.Some?
      ensures KnowsContext(l', l'.stimuli[k].boundContext.value)
    {
      if l.stimuli[k].boundContext.Some? { ContextStays(l, l', l.stimuli[k].boundContext.value); }
    }
    forall k | 0 <= k < |l.stimuli| && !KnowsContext(l, contextId)
      ensures l.stimuli[k].boundContext != Some(contextId) {}
  }

  /** The first row of a Task goes into the log as it is, and only if it is the Task's and tells the artifact. */
  lemma FirstLogged(log: seq<LogRow>, taskId: string, artifact: Option<Artifact>, stimulus: LogRow)
    requires LogAfter(log, taskId, artifact, stimulus).Success? && forall i :: 0 <= i < |log| ==>
      log[i].taskId != taskId
    ensures LogAfter(log, taskId, artifact, stimulus).value == log + [stimulus] && stimulus.taskId == taskId
    ensures artifact.Some? && artifact.value.sha256 == stimulus.sha256 && artifact.value.content == stimulus.content
  {
  }

  /** A finish that commits: it settles one working Task and logs at most one row, which tells what that Task serves. */
  lemma FinishShape(l: Ledger, taskId: string, artifact: Option<Artifact>, stimulus: Option<LogRow>) returns (k: nat)
    requires TasksOk(l) && LogOk(l) && Finish(l, taskId, artifact, stimulus).0.Success?
    ensures k < |l.tasks| && l.tasks[k].taskId == taskId && l.tasks[k].state.Working?
    ensures var l' := Finish(l, taskId, artifact, stimulus).1;
      && l' == l.(tasks := l'.tasks, log := l'.log)
      && l'.tasks == l.tasks[k := Settled(l.tasks[k], artifact)]
      && l'.log == (if stimulus.Some? then l.log + [stimulus.value] else l.log)
      && (stimulus.Some? ==> Serves(l'.tasks[k], stimulus.value))
    ensures forall i :: 0 <= i < |l.log| ==> l.log[i].taskId != taskId
  {
    hide LogRowOk, Apart, LogAfter;
    k := TaskAt(l, taskId).value;
    forall i | 0 <= i < |l.log| ensures l.log[i].taskId != taskId { NotLogged(l, i, k); }
    if stimulus.Some? { FirstLogged(l.log, taskId, artifact, stimulus.value); }
  }

  lemma FinishKeeps(l: Ledger, taskId: string, artifact: Option<Artifact>, stimulus: Option<LogRow>)
    requires Inv(l)
    ensures Inv(Finish(l, taskId, artifact, stimulus).1) && Grows(l, Finish(l, taskId, artifact, stimulus).1)
  {
    hide TasksOk, CallsOk, StimuliOk, LogOk, Serves, Finish;
    var l' := Finish(l, taskId, artifact, stimulus).1;
    if Finish(l, taskId, artifact, stimulus).0.Success? {
      var k := FinishShape(l, taskId, artifact, stimulus);
      FinishedTasks(l, l', k);
      FinishedLog(l, l', k, stimulus);
      SameStimuli(l, l');
      SameCalls(l, l');
    } else {
      assert l' == l by { FinishFails(l, taskId, artifact, stimulus); }
      SameLedger(l);
    }
  }

  lemma FinishFails(l: Ledger, taskId: string, artifact: Option<Artifact>, stimulus: Option<LogRow>)
    requires Finish(l, taskId, artifact, stimulus).0.Failure?
    ensures Finish(l, taskId, artifact, stimulus).1 == l
  {
    hide LogAfter;
  }

  lemma FinishedLog(l: Ledger, l': Ledger, k: nat, stimulus: Option<LogRow>)
    requires LogOk(l) && |l.tasks| <= |l'.tasks| && forall i :: 0 <= i < |l.tasks| ==>
      TaskGrows(l.tasks[i], l'.tasks[i])
    requires k < |l'.tasks| && l'.log == if stimulus.Some? then l.log + [stimulus.value] else l.log
    requires stimulus.Some? ==> Serves(l'.tasks[k], stimulus.value)
    requires forall i :: 0 <= i < |l.log| ==> l.log[i].taskId != l'.tasks[k].taskId
    ensures LogOk(l')
  {
    hide LogRowOk, TaskGrows;
    forall i | 0 <= i < |l.log| ensures LogRowOk(l', l.log[i]) { LogRowStays(l, l', l.log[i]); }
    if stimulus.Some? { ServedRowOk(l', k, stimulus.value); }
  }

  lemma SameStimuli(l: Ledger, l': Ledger)
    requires StimuliOk(l) && l'.stimuli == l.stimuli
    requires |l.tasks| <= |l'.tasks| && forall i :: 0 <= i < |l.tasks| ==> TaskGrows(l.tasks[i], l'.tasks[i])
    ensures StimuliOk(l')
  {
    hide KnowsContext, TaskGrows;
    forall i | 0 <= i < |l.stimuli| && l.stimuli[i].boundContext.Some?
      ensures KnowsContext(l', l.stimuli[i].boundContext.value)
    {
      ContextStays(l, l', l.stimuli[i].boundContext.value);
    }
  }

  lemma ServedRowOk(l: Ledger, k: nat, row: LogRow)
    requires k < |l.tasks| && Serves(l.tasks[k], row)
    ensures LogRowOk(l, row)
  {
  }

  lemma SameCalls(l: Ledger, l': Ledger)
    requires CallsOk(l) && l'.calls == l.calls
    ensures CallsOk(l')
  {
  }

  lemma FinishedTasks(l: Ledger, l': Ledger, k: nat)
    requires TasksOk(l) && k < |l.tasks| && l.tasks[k].state.Working? && |l'.tasks| == |l.tasks|
    requires l'.tasks == l.tasks[k := l'.tasks[k]] && TaskOk(l'.tasks[k])
    requires l'.tasks[k].(state := Working, artifact := l.tasks[k].artifact) == l.tasks[k]
    ensures TasksOk(l') && forall i :: 0 <= i < |l.tasks| ==> TaskGrows(l.tasks[i], l'.tasks[i])
  {
    forall i, j | 0 <= i < j < |l.tasks|
      ensures Apart(l'.tasks[i], l'.tasks[j])
    {
      assert Apart(l.tasks[i], l.tasks[j]);
    }
  }

  /** A working Task has no log row: the branch of `work` that recovers one is never taken. */
  lemma NotLogged(l: Ledger, i: nat, k: nat)
    requires TasksOk(l) && LogOk(l) && i < |l.log| && k < |l.tasks| && l.tasks[k].state.Working?
    ensures l.log[i].taskId != l.tasks[k].taskId
  {
    assert LogRowOk(l, l.log[i]);
    var j :| 0 <= j < |l.tasks| && Serves(l.tasks[j], l.log[i]);
    assert (j < k ==> Apart(l.tasks[j], l.tasks[k])) && (k < j ==> Apart(l.tasks[k], l.tasks[j]));
  }

  lemma CallStartKeeps(l: Ledger, taskId: string)
    requires Inv(l)
    ensures Inv(CallStart(l, taskId).1) && Grows(l, CallStart(l, taskId).1)
  {
    var l' := CallStart(l, taskId).1;
    SameLedger(l);
    if l' != l {
      SameRest(l, l');
      assert l'.calls[..|l.calls|] == l.calls && l'.calls[..|l'.calls|] == l'.calls;
      forall k | 0 <= k < |l'.calls|
        ensures l'.calls[k].number == CallCount(l'.calls[..k + 1], l'.calls[k].taskId) <= MAX_CALLS
      {
        if k < |l.calls| { assert l'.calls[..k + 1] == l.calls[..k + 1]; }
      }
    }
  }

  lemma SameRest(l: Ledger, l': Ledger)
    requires TasksOk(l) && StimuliOk(l) && LogOk(l) && l'.tasks == l.tasks && l'.stimuli == l.stimuli && l'.log == l.log
    requires |l.calls| <= |l'.calls|
    ensures TasksOk(l') && StimuliOk(l') && LogOk(l') && Grows(l, l')
  {
    forall k | 0 <= k < |l.log| ensures LogRowOk(l', l.log[k]) { LogRowStays(l, l', l.log[k]); }
    forall k | 0 <= k < |l.stimuli| && l.stimuli[k].boundContext.Some?
      ensures KnowsContext(l', l.stimuli[k].boundContext.value)
    {
      ContextStays(l, l', l.stimuli[k].boundContext.value);
    }
  }

  lemma {:induction false} CountIgnoresOutcome(calls: seq<CallRow>, call: nat, outcome: string, taskId: string)
    requires call < |calls|
    ensures CallCount(calls[call := calls[call].(outcome := Some(outcome))], taskId) == CallCount(calls, taskId)
  {
    var calls' := calls[call := calls[call].(outcome := Some(outcome))];
    var n := |calls| - 1;
    if call < n {
      assert calls'[..n] == calls[..n][call := calls[call].(outcome := Some(outcome))];
      CountIgnoresOutcome(calls[..n], call, outcome, taskId);
    } else {
      assert calls'[..n] == calls[..n];
    }
  }

  lemma CallEndKeeps(l: Ledger, call: nat, outcome: string)
    requires Inv(l)
    ensures Inv(CallEnd(l, call, outcome)) && Grows(l, CallEnd(l, call, outcome))
  {
    var l' := CallEnd(l, call, outcome);
    SameRest(l, l');
    if call < |l.calls| {
      forall k | 0 <= k < |l'.calls|
        ensures l'.calls[k].number == CallCount(l'.calls[..k + 1], l'.calls[k].taskId) <= MAX_CALLS
      {
        if call <= k {
          assert l'.calls[..k + 1] == l.calls[..k + 1][call := l'.calls[call]];
          CountIgnoresOutcome(l.calls[..k + 1], call, outcome, l.calls[k].taskId);
        } else {
          assert l'.calls[..k + 1] == l.calls[..k + 1];
        }
      }
    }
  }

  lemma ArmKeeps(l: Ledger, text: string, evidence: seq<string>, revisions: Revisions)
    requires Inv(l)
    ensures Inv(Arm(l, text, evidence, revisions).1) && Grows(l, Arm(l, text, evidence, revisions).1)
  {
    var l' := Arm(l, text, evidence, revisions).1;
    SameLedger(l);
    if l' != l {
      forall k | 0 <= k < |l.tasks| ensures TaskGrows(l.tasks[k], l'.tasks[k]) {}
      forall k | 0 <= k < |l.log| ensures LogRowOk(l', l.log[k]) { LogRowStays(l, l', l.log[k]); }
      forall k | 0 <= k < |l.stimuli| && l.stimuli[k].boundContext.Some?
        ensures KnowsContext(l', l.stimuli[k].boundContext.value)
      {
        ContextStays(l, l', l.stimuli[k].boundContext.value);
      }
    }
  }

  lemma ApplyKeeps(l: Ledger, op: Op)
    requires Inv(l)
    ensures Inv(Apply(l, op)) && Grows(l, Apply(l, op))
  {
    hide Inv, Grows, Accept, Finish, CallStart, CallEnd, Arm;
    match op {
      case Accepting(request, taskId, newContext) => AcceptKeeps(l, request, taskId, newContext);
      case Finishing(taskId, artifact, stimulus) => FinishKeeps(l, taskId, artifact, stimulus);
      case StartingCall(taskId) => CallStartKeeps(l, taskId);
      case EndingCall(call, outcome) => CallEndKeeps(l, call, outcome);
      case Arming(text, evidence, revisions) => ArmKeeps(l, text, evidence, revisions);
    }
  }

  lemma GrowsComposes(a: Ledger, b: Ledger, c: Ledger)
    requires Grows(a, b) && Grows(b, c)
    ensures Grows(a, c)
  {
    forall k | 0 <= k < |a.tasks| ensures TaskGrows(a.tasks[k], c.tasks[k]) {
      assert TaskGrows(a.tasks[k], b.tasks[k]) && TaskGrows(b.tasks[k], c.tasks[k]);
    }
  }

  lemma {:induction false} RunKeeps(l: Ledger, ops: seq<Op>)
    requires Inv(l)
    ensures Inv(Run(l, ops)) && Grows(l, Run(l, ops))
    decreases |ops|
  {
    hide Inv, Grows, Apply;
    if ops == [] {
      SameLedger(l);
    } else {
      ApplyKeeps(l, ops[0]);
      RunKeeps(Apply(l, ops[0]), ops[1..]);
      GrowsComposes(l, Apply(l, ops[0]), Run(l, ops));
    }
  }
}
