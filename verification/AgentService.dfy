/** The ledger as an object whose transactions change its tables, the stimulus it plants in a draft, and the worker
    that brings a Task to its end. */
module AgentService {
  import opened Prelude
  import opened AgentLedger

  datatype Document = Document(claims: seq<Claim>, markdown: string)

  /** `canonical`, `json.loads` and the digest, as far as they matter here. */
  datatype Codec = Codec(render: Document -> string, parse: string -> Document, hash: string -> string)

  /** One turn of the loop in `work`: the limits stop it, or a call is made and parsed, refused or raises. */
  datatype Turn = Stops | Parsed(content: Document) | Unparsed | Raises

  /** The draft that a Task with this many calls left gets from the model. */
  function Produced(turns: seq<Turn>, left: nat): Option<Document>
    decreases left
  {
    if turns == [] || left == 0 || turns[0].Stops? || turns[0].Raises? then None
    else if turns[0].Parsed? then Some(turns[0].content)
    else Produced(turns[1..], left - 1)
  }

  /** The rows of the calls made for it: one for each turn up to the first that parses, raises or is not made. */
  function CallsMade(taskId: string, number: nat, turns: seq<Turn>, left: nat): seq<CallRow>
    decreases left
  {
    if turns == [] || left == 0 || turns[0].Stops? then []
    else
      [CallRow(taskId, number, Some(EndOf(turns[0])))] +
      if turns[0].Unparsed? then CallsMade(taskId, number + 1, turns[1..], left - 1) else []
  }

  /** How a call's row ends. */
  function EndOf(turn: Turn): string {
    match turn
    case Raises => "error"
    case Unparsed => "validation-error"
    case _ => "completed"
  }

  function Ids(claims: seq<Claim>): set<string> {
    set k | 0 <= k < |claims| :: claims[k].id
  }

  lemma {:induction false} IdsSize(claims: seq<Claim>)
    ensures |Ids(claims)| <= |claims|
  {
    if claims != [] {
      var n := |claims| - 1;
      IdsSize(claims[..n]);
      assert Ids(claims) == Ids(claims[..n]) + {claims[n].id};
    }
  }

  /** The stimulus for a draft, if its context has one that covers the revision. */
  function Due(l: Ledger, contextId: string, revision: string): Option<nat> {
    match BoundTo(l, contextId)
    case None => None
    case Some(k) =>
      var covered := l.stimuli[k].revisions;
      if covered.Only? && revision !in covered.revisions then None else Some(k)
  }

  function LoggedAt(l: Ledger, taskId: string, revision: string): Option<nat> {
    Find(l.log, (x: LogRow) => x.taskId == taskId && x.revision == revision)
  }

  /** `after` is `before` with the claim planted under a number no claim of `before` has; every smaller number is taken,
      and the number is at most one more than there are claims. */
  ghost predicate Planted(before: Document, after: Document, s: Stimulus, number: nat) {
    var id := "C" + Decimal(number);
    && 1 <= number <= |before.claims| + 1
    && id !in Ids(before.claims) && Names("C", number - 1) <= Ids(before.claims)
    && after.claims == before.claims + [Claim(id, s.text, s.evidence)]
    && after.markdown == before.markdown + "\n\n" + s.text
  }

  class LedgerObject {
    var tasks: seq<TaskRow>
    var calls: seq<CallRow>
    var stimuli: seq<Stimulus>
    var log: seq<LogRow>
    const testControls: bool
    const codec: Codec

    ghost function State(): Ledger
      reads this
    {
      Ledger(tasks, calls, stimuli, log, testControls)
    }

    constructor (controls: bool, c: Codec)
      ensures State() == NewLedger(controls) && codec == c
    {
      tasks, calls, stimuli, log, testControls, codec := [], [], [], [], controls, c;
    }

    /** model_agent.py:215-246. */
    method AcceptMessage(r: Request, taskId: string, newContext: string) returns (result: Result<(string, bool)>)
      modifies this
      ensures (result, State()) == Accept(old(State()), r, taskId, newContext)
    {
      var known := Find(tasks, (t: TaskRow) => t.messageId == r.messageId);
      if known.Some? {
        if tasks[known.value].fingerprint != r.content { return Failure("messageId reused with a different message"); }
        return Success((tasks[known.value].taskId, false));
      }
      if Find(tasks, (t: TaskRow) => t.taskId == taskId).Some? {
        return Failure("UNIQUE constraint failed: tasks.task_id");
      }
      var contextId := newContext;
      if r.content.contextId.Some? && r.content.contextId.value != "" { contextId := r.content.contextId.value; }
      if testControls && !(exists k :: 0 <= k < |tasks| && tasks[k].contextId == contextId) {
        var pending := Find(stimuli, (s: Stimulus) => s.boundContext.None?);
        if pending.Some? {
          stimuli := stimuli[pending.value := stimuli[pending.value].(boundContext := Some(contextId))];
        }
      }
      tasks := tasks + [TaskRow(taskId, contextId, r.messageId, r.content, Working, None)];
      result := Success((taskId, true));
    }

    /** model_agent.py:292-305: the log with the stimulus row, if the transaction does not raise. */
    method LogStimulus(taskId: string, artifact: Option<Artifact>,
        stimulus: LogRow) returns (result: Result<seq<LogRow>>)
      ensures result == LogAfter(log, taskId, artifact, stimulus)
    {
      if artifact.None? || artifact.value.sha256 != stimulus.sha256 {
        return Failure("stimulus artifact digest mismatch");
      }
      var rows := Logged(log, stimulus);
      var found := Find(rows, (x: LogRow) => SameLogKey(x, stimulus.(taskId := taskId)));
      if found.None? || rows[found.value].sha256 != artifact.value.sha256
        || rows[found.value].content != artifact.value.content
      {
        return Failure("recovered stimulus content mismatch");
      }
      result := Success(rows);
    }

    /** model_agent.py:290-310. A transaction that raises leaves the tables as they were. */
    method FinishTask(taskId: string, artifact: Option<Artifact>, stimulus: Option<LogRow>) returns (result: Result<()>)
      modifies `tasks, `log
      ensures (result, State()) == Finish(old(State()), taskId, artifact, stimulus)
    {
      hide LogAfter;
      var rows := log;
      if stimulus.Some? {
        var logged := LogStimulus(taskId, artifact, stimulus.value);
        if logged.Failure? { return Failure(logged.error); }
        rows := logged.value;
      }
      var k := Find(tasks, (t: TaskRow) => t.taskId == taskId);
      if k.None? || !tasks[k.value].state.Working? { return Failure("Task is no longer working"); }
      log := rows;
      var state := if artifact.Some? then Completed else Failed;
      tasks := tasks[k.value := tasks[k.value].(state := state, artifact := artifact)];
      result := Success(());
    }

    /** model_agent.py:320-330. */
    method StartCall(taskId: string) returns (call: Result<nat>)
      modifies `calls
      ensures (call, State()) == CallStart(old(State()), taskId)
    {
      var number := CallCount(calls, taskId) + 1;
      if number > MAX_CALLS { return Failure("model call budget exhausted"); }
      call := Success(|calls|);
      calls := calls + [CallRow(taskId, number, None)];
    }

    /** model_agent.py:332-341. */
    method EndCall(call: nat, outcome: string)
      modifies `calls
      ensures State() == CallEnd(old(State()), call, outcome)
    {
      if call < |calls| { calls := calls[call := calls[call].(outcome := Some(outcome))]; }
    }

    /** model_agent.py:359-377. */
    method ArmStimulus(text: string, evidence: seq<string>, revisions: Revisions) returns (id: Result<nat>)
      modifies `stimuli
      ensures (id, State()) == Arm(old(State()), text, evidence, revisions)
    {
      if !testControls { return Failure("test controls are not enabled"); }
      if !ValidStimulus(text, evidence, revisions) { return Failure("invalid stimulus"); }
      if Find(stimuli, (s: Stimulus) => s.boundContext.None?).Some? { return Failure("a stimulus is already armed"); }
      id := Success(|stimuli|);
      stimuli := stimuli + [Stimulus(text, evidence, revisions, None)];
    }

    /** model_agent.py:395-424. A committed row is served again; a bound stimulus that covers the revision is
        planted. */
    method ApplyStimulus(taskId: string, contextId: string, revision: string, content: Document)
      returns (result: Result<(Document, Option<LogRow>)>)
      ensures LoggedAt(State(), taskId, revision).None? ==> result.Success?
      ensures LoggedAt(State(), taskId, revision).Some? ==>
        var row := log[LoggedAt(State(), taskId, revision).value];
        result.Success? <==> codec.hash(row.content) == row.sha256
      ensures LoggedAt(State(), taskId, revision).Some? && result.Success? ==>
        var row := log[LoggedAt(State(), taskId, revision).value];
        result.value == (codec.parse(row.content), Some(row)) && codec.hash(row.content) == row.sha256
      ensures LoggedAt(State(), taskId, revision).None? && Due(State(), contextId, revision).None? ==>
        result.value == (content, None)
      ensures LoggedAt(State(), taskId, revision).None? && Due(State(), contextId, revision).Some? ==>
        var (after, row) := result.value;
        var k := Due(State(), contextId, revision).value;
        && (exists number :: Planted(content, after, stimuli[k], number))
        && row == Some(LogRow(k, contextId, revision, taskId, stimuli[k].text, codec.hash(codec.render(after)),
          codec.render(after)))
    {
      var logged := Find(log, (x: LogRow) => x.taskId == taskId && x.revision == revision);
      if logged.Some? {
        var row := log[logged.value];
        if codec.hash(row.content) != row.sha256 { return Failure("committed stimulus digest mismatch"); }
        return Success((codec.parse(row.content), Some(row)));
      }
      var bound := Find(stimuli, (s: Stimulus) => s.boundContext == Some(contextId));
      if bound.None? { return Success((content, None)); }
      var s := stimuli[bound.value];
      if s.revisions.Only? && revision !in s.revisions.revisions { return Success((content, None)); }
      var number := FirstFree("C", Ids(content.claims));
      IdsSize(content.claims);
      var modified := Document(content.claims + [Claim("C" + Decimal(number), s.text, s.evidence)],
        content.markdown + "\n\n" + s.text);
      assert Planted(content, modified, s, number);
      var rendered := codec.render(modified);
      result := Success((modified,
        Some(LogRow(bound.value, contextId, revision, taskId, s.text, codec.hash(rendered), rendered))));
    }
  }

  // The worker.

  function ArtifactOf(codec: Codec, revision: string, served: Document): Artifact {
    var rendered := codec.render(served);
    Artifact(revision, codec.hash(rendered), rendered)
  }

  /** A stimulus row that tells what the artifact is. */
  predicate Tells(stimulus: LogRow, taskId: string, artifact: Option<Artifact>) {
    && artifact.Some? && stimulus.taskId == taskId
    && stimulus.sha256 == artifact.value.sha256 && stimulus.content == artifact.value.content
  }

  /** A call is made, ended, and perhaps judged. Nothing but the Task's calls changes. */
  ghost predicate OnlyCalls(l: Ledger, l': Ledger, taskId: string) {
    && l' == l.(calls := l'.calls) && l.calls <= l'.calls
    && forall k :: |l.calls| <= k < |l'.calls| ==> l'.calls[k].taskId == taskId
  }

  lemma OnlyCallsComposes(a: Ledger, b: Ledger, c: Ledger, taskId: string)
    requires OnlyCalls(a, b, taskId) && OnlyCalls(b, c, taskId)
    ensures OnlyCalls(a, c, taskId)
  {
  }

  /** A call started and ended adds one call of the Task. */
  lemma CallCounts(l: Ledger, taskId: string, outcome: string)
    requires Inv(l) && CallCount(l.calls, taskId) < MAX_CALLS
    ensures CallStart(l, taskId).0 == Success(|l.calls|)
    ensures var l' := CallEnd(CallStart(l, taskId).1, |l.calls|, outcome);
      Inv(l') && OnlyCalls(l, l', taskId) && CallCount(l'.calls, taskId) == CallCount(l.calls, taskId) + 1
  {
    hide Inv;
    CallStartKeeps(l, taskId);
    var l1 := CallStart(l, taskId).1;
    CallEndKeeps(l1, |l.calls|, outcome);
    CountIgnoresOutcome(l1.calls, |l.calls|, outcome, taskId);
    assert l1.calls[..|l.calls|] == l.calls;
  }

  lemma CallOverwritten(l: Ledger, taskId: string, first: string, second: string)
    requires CallCount(l.calls, taskId) < MAX_CALLS
    ensures CallEnd(CallEnd(CallStart(l, taskId).1, |l.calls|, first), |l.calls|, second)
      == CallEnd(CallStart(l, taskId).1, |l.calls|, second)
  {
  }

  lemma NoCallYet(l: Ledger, taskId: string)
    ensures OnlyCalls(l, l, taskId)
  {
  }

  /** One turn that is made. */
  lemma OneTurn(taskId: string, number: nat, turns: seq<Turn>, i: nat, left: nat)
    requires i < |turns| && left > 0 && !turns[i].Stops?
    ensures Produced(turns[i..], left) ==
      if turns[i].Raises? then None
      else if turns[i].Parsed? then Some(turns[i].content)
      else Produced(turns[i + 1..], left - 1)
    ensures CallsMade(taskId, number, turns[i..], left) ==
      [CallRow(taskId, number, Some(EndOf(turns[i])))] +
      if turns[i].Unparsed? then CallsMade(taskId, number + 1, turns[i + 1..], left - 1) else []
  {
    assert turns[i..][1..] == turns[i + 1..];
  }

  lemma LastTurn(taskId: string, number: nat, turns: seq<Turn>, left: nat)
    requires turns == [] || left == 0 || turns[0].Stops?
    ensures Produced(turns, left).None? && CallsMade(taskId, number, turns, left) == []
  {
  }

  lemma EndedCall(l: Ledger, taskId: string, outcome: string)
    requires CallCount(l.calls, taskId) < MAX_CALLS
    ensures CallEnd(CallStart(l, taskId).1, |l.calls|, outcome).calls
      == l.calls + [CallRow(taskId, CallCount(l.calls, taskId) + 1, Some(outcome))]
  {
  }

  class Service {
    const ledger: LedgerObject

    constructor (l: LedgerObject)
      ensures ledger == l
    {
      ledger := l;
    }

    /** One turn of the loop at model_agent.py:613-634. */
    method CallModel(taskId: string, turn: Turn) returns (raised: bool)
      requires Inv(ledger.State()) && CallCount(ledger.calls, taskId) < MAX_CALLS && !turn.Stops?
      modifies ledger`calls
      ensures Inv(ledger.State()) && OnlyCalls(old(ledger.State()), ledger.State(), taskId)
      ensures CallCount(ledger.calls, taskId) == CallCount(old(ledger.calls), taskId) + 1
      ensures ledger.calls ==
        old(ledger.calls) + [CallRow(taskId, CallCount(old(ledger.calls), taskId) + 1, Some(EndOf(turn)))]
      ensures raised <==> turn.Raises?
    {
      hide Inv, CallStart, CallEnd, CallCount, OnlyCalls;
      var outcome := if turn.Raises? then "error" else "completed";
      CallCounts(ledger.State(), taskId, outcome);
      CallCounts(ledger.State(), taskId, "validation-error");
      CallOverwritten(ledger.State(), taskId, outcome, "validation-error");
      EndedCall(ledger.State(), taskId, outcome);
      EndedCall(ledger.State(), taskId, "validation-error");
      var call := ledger.StartCall(taskId);
      ledger.EndCall(call.value, outcome);
      if turn.Unparsed? { ledger.EndCall(call.value, "validation-error"); }
      raised := turn.Raises?;
    }

    /** model_agent.py:612-636. None: the budget is exhausted or a call raised. */
    method Draft(taskId: string, turns: seq<Turn>) returns (content: Option<Document>)
      requires Inv(ledger.State()) && CallCount(ledger.calls, taskId) <= MAX_CALLS
      modifies ledger`calls
      ensures Inv(ledger.State()) && OnlyCalls(old(ledger.State()), ledger.State(), taskId)
      ensures var made := old(CallCount(ledger.calls, taskId));
        && content == Produced(turns, MAX_CALLS - made)
        && ledger.calls == old(ledger.calls) + CallsMade(taskId, made + 1, turns, MAX_CALLS - made)
    {
      hide Inv, CallCount, EndOf, OnlyCalls, Produced, CallsMade;
      assert turns[0..] == turns;
      NoCallYet(ledger.State(), taskId);
      ghost var made := CallCount(ledger.calls, taskId);
      var i := 0;
      while i < |turns| && !turns[i].Stops? && CallCount(ledger.calls, taskId) < MAX_CALLS
        invariant 0 <= i <= |turns| && Inv(ledger.State()) && OnlyCalls(old(ledger.State()), ledger.State(), taskId)
        invariant CallCount(ledger.calls, taskId) <= MAX_CALLS
        invariant Produced(turns, MAX_CALLS - old(CallCount(ledger.calls, taskId)))
          == Produced(turns[i..], MAX_CALLS - CallCount(ledger.calls, taskId))
        invariant old(ledger.calls) + CallsMade(taskId, made + 1, turns, MAX_CALLS - made) == ledger.calls +
          CallsMade(taskId, CallCount(ledger.calls, taskId) + 1, turns[i..],
            MAX_CALLS - CallCount(ledger.calls, taskId))
      {
        ghost var before := ledger.State();
        OneTurn(taskId, CallCount(ledger.calls, taskId) + 1, turns, i, MAX_CALLS - CallCount(ledger.calls, taskId));
        var raised := CallModel(taskId, turns[i]);
        OnlyCallsComposes(old(ledger.State()), before, ledger.State(), taskId);
        if raised { return None; }
        if turns[i].Parsed? { return Some(turns[i].content); }
        i := i + 1;
      }
      LastTurn(taskId, CallCount(ledger.calls, taskId) + 1, turns[i..], MAX_CALLS - CallCount(ledger.calls, taskId));
      content := None;
    }

    /** model_agent.py:597-643: a draft is planted with the stimulus due to its context, and served. */
    method Serve(taskId: string, revision: string, draft: Document)
      requires Inv(ledger.State()) && TaskAt(ledger.State(), taskId).Some?
      requires ledger.tasks[TaskAt(ledger.State(), taskId).value].state.Working?
      modifies ledger`tasks, ledger`log
      ensures Inv(ledger.State())
      ensures var l := old(ledger.State()); var k := TaskAt(l, taskId).value;
        exists served: Document ::
          && Delivered(l, k, revision, draft, served)
          && ledger.tasks == l.tasks[k := Settled(l.tasks[k], Some(ArtifactOf(ledger.codec, revision, served)))]
          && LogGrows(l, k, revision, ledger.codec, served, ledger.log)
    {
      hide Inv, Finish, CallCount, Due;
      ghost var l := ledger.State();
      var row := Find(ledger.tasks, (t: TaskRow) => t.taskId == taskId);
      NothingLogged(l, row.value, revision);
      var served, stimulus := draft, None;
      if ledger.testControls {
        var applied := ledger.ApplyStimulus(taskId, ledger.tasks[row.value].contextId, revision, served);
        served, stimulus := applied.value.0, applied.value.1;
      }
      assert Delivered(l, row.value, revision, draft, served);
      Settle(taskId, Some(ArtifactOf(ledger.codec, revision, served)), stimulus);
      assert LogGrows(l, row.value, revision, ledger.codec, served, ledger.log);
    }

    /** `work`. `revision` is the brief's, unless reading the brief raises; `checked` is what the role's precheck gives.
        Left to run, it brings a working Task to its end and touches no other; the Task completes exactly when a draft
        was checked in advance or came within the calls left, and then serves that draft, planted with the stimulus
        due to its context, which is logged; and each call made is recorded. */
    method Work(taskId: string, revision: Option<string>, checked: Option<Document>, turns: seq<Turn>)
      requires Inv(ledger.State()) && TaskAt(ledger.State(), taskId).Some?
      requires CallCount(ledger.calls, taskId) <= MAX_CALLS
      modifies ledger
      ensures Inv(ledger.State())
      ensures !old(StillWorking(taskId)) ==> ledger.State() == old(ledger.State())
      ensures old(StillWorking(taskId)) ==>
        Worked(old(ledger.State()), ledger.State(), taskId, revision, checked, turns)
    {
      hide Inv, Finish, CallCount, Produced, CallsMade, Delivered, LogGrows, TasksOk;
      ghost var l := ledger.State();
      var row := Find(ledger.tasks, (t: TaskRow) => t.taskId == taskId);
      if !ledger.tasks[row.value].state.Working? { return; }
      if revision.None? {
        Settle(taskId, None, None);
        return;
      }
      var content := checked;
      if content.None? { content := Draft(taskId, turns); }
      if content.None? {
        Settle(taskId, None, None);
      } else {
        ghost var l1 := ledger.State();
        Serve(taskId, revision.value, content.value);
        ghost var served :| Delivered(l1, row.value, revision.value, content.value, served)
          && ledger.tasks == l.tasks[row.value :=
               Settled(l.tasks[row.value], Some(ArtifactOf(ledger.codec, revision.value, served)))]
          && LogGrows(l1, row.value, revision.value, ledger.codec, served, ledger.log);
        SameButCalls(l, l1, row.value, revision.value, ledger.codec, content.value, served, ledger.log);
        assert Served(l, ledger.State(), row.value, revision.value, content.value, served);
      }
    }

    ghost predicate StillWorking(taskId: string)
      requires TaskAt(ledger.State(), taskId).Some?
      reads ledger
    {
      ledger.tasks[TaskAt(ledger.State(), taskId).value].state.Working?
    }

    /** Task k now serves this document, and nothing else changed but its calls. */
    ghost predicate Served(l: Ledger, l': Ledger, k: nat, revision: string, draft: Document, served: Document)
      requires k < |l.tasks|
    {
      && Delivered(l, k, revision, draft, served)
      && l'.tasks == l.tasks[k :=
           l.tasks[k].(state := Completed, artifact := Some(ArtifactOf(ledger.codec, revision, served)))]
      && LogGrows(l, k, revision, ledger.codec, served, l'.log)
    }

    ghost predicate Worked(l: Ledger, l': Ledger, taskId: string, revision: Option<string>, checked: Option<Document>,
        turns: seq<Turn>)
      requires TaskAt(l, taskId).Some?
    {
      var k := TaskAt(l, taskId).value;
      var made := CallCount(l.calls, taskId);
      var draft :=
        if checked.Some? then checked else if made <= MAX_CALLS then Produced(turns, MAX_CALLS - made) else None;
      && l'.stimuli == l.stimuli
      && l'.calls == l.calls +
           (if revision.None? || checked.Some? || made > MAX_CALLS then []
            else CallsMade(taskId, made + 1, turns, MAX_CALLS - made))
      && if revision.Some? && draft.Some? then exists served :: Served(l, l', k, revision.value, draft.value, served)
         else l'.tasks == l.tasks[k := l.tasks[k].(state := Failed, artifact := None)] && l'.log == l.log
    }

    /** The worker's `finish`, which cannot raise for a Task still working. */
    method Settle(taskId: string, artifact: Option<Artifact>, stimulus: Option<LogRow>)
      requires Inv(ledger.State()) && TaskAt(ledger.State(), taskId).Some?
      requires ledger.tasks[TaskAt(ledger.State(), taskId).value].state.Working?
      requires stimulus.Some? ==> Tells(stimulus.value, taskId, artifact)
      modifies ledger`tasks, ledger`log
      ensures Inv(ledger.State())
      ensures var k := TaskAt(old(ledger.State()), taskId).value;
        ledger.tasks == old(ledger.tasks)[k := Settled(old(ledger.tasks)[k], artifact)]
      ensures ledger.log == old(ledger.log) + if stimulus.Some? then [stimulus.value] else []
    {
      hide Inv;
      ghost var l := ledger.State();
      SettleLogs(l, taskId, artifact, stimulus);
      FinishKeeps(l, taskId, artifact, stimulus);
      FinishSucceeds(l, taskId, artifact, stimulus);
      var _ := ledger.FinishTask(taskId, artifact, stimulus);
    }
  }

  /** What a completed Task serves: its draft, planted if a stimulus is due to its context. */
  ghost predicate Delivered(l: Ledger, k: nat, revision: string, draft: Document, served: Document)
    requires k < |l.tasks|
  {
    var due := Due(l, l.tasks[k].contextId, revision);
    if l.testControls && due.Some? then exists number :: Planted(draft, served, l.stimuli[due.value], number)
    else served == draft
  }

  /** The log gains the row of the stimulus due, telling what is served, and nothing otherwise. */
  ghost predicate LogGrows(l: Ledger, k: nat, revision: string, codec: Codec, served: Document, log: seq<LogRow>)
    requires k < |l.tasks|
  {
    var due := Due(l, l.tasks[k].contextId, revision);
    if l.testControls && due.Some? then
      log == l.log + [LogRow(due.value, l.tasks[k].contextId, revision, l.tasks[k].taskId, l.stimuli[due.value].text,
                             codec.hash(codec.render(served)), codec.render(served))]
    else log == l.log
  }

  /** Calls do not matter to what is served. */
  lemma SameButCalls(l: Ledger, l1: Ledger, k: nat, revision: string, codec: Codec, draft: Document, served: Document,
      log: seq<LogRow>)
    requires l1 == l.(calls := l1.calls) && k < |l.tasks|
    ensures Delivered(l1, k, revision, draft, served) ==> Delivered(l, k, revision, draft, served)
    ensures LogGrows(l1, k, revision, codec, served, log) ==> LogGrows(l, k, revision, codec, served, log)
  {
    hide Planted;
    assert Due(l1, l.tasks[k].contextId, revision) == Due(l, l.tasks[k].contextId, revision);
  }

  lemma SettleLogs(l: Ledger, taskId: string, artifact: Option<Artifact>, stimulus: Option<LogRow>)
    requires Inv(l) && TaskAt(l, taskId).Some? && l.tasks[TaskAt(l, taskId).value].state.Working?
    requires stimulus.Some? ==> Tells(stimulus.value, taskId, artifact)
    ensures Finish(l, taskId, artifact, stimulus).1.log == l.log + if stimulus.Some? then [stimulus.value] else []
  {
    hide CallsOk, StimuliOk, Finish, Apart, LogRowOk;
    FinishSucceeds(l, taskId, artifact, stimulus);
    var k := FinishShape(l, taskId, artifact, stimulus);
  }

  lemma NothingLogged(l: Ledger, k: nat, revision: string)
    requires Inv(l) && k < |l.tasks| && l.tasks[k].state.Working?
    ensures LoggedAt(l, l.tasks[k].taskId, revision).None?
  {
    hide CallsOk, StimuliOk, Apart, LogRowOk;
    forall i | 0 <= i < |l.log| ensures l.log[i].taskId != l.tasks[k].taskId { NotLogged(l, i, k); }
  }

  lemma FinishSucceeds(l: Ledger, taskId: string, artifact: Option<Artifact>, stimulus: Option<LogRow>)
    requires Inv(l) && TaskAt(l, taskId).Some? && l.tasks[TaskAt(l, taskId).value].state.Working?
    requires stimulus.Some? ==> Tells(stimulus.value, taskId, artifact)
    ensures Finish(l, taskId, artifact, stimulus).0.Success?
  {
    hide CallsOk, StimuliOk, Apart, LogRowOk;
    var k := TaskAt(l, taskId).value;
    forall i | 0 <= i < |l.log| ensures l.log[i].taskId != taskId { NotLogged(l, i, k); }
    if stimulus.Some? {
      assert Logged(l.log, stimulus.value) == l.log + [stimulus.value];
      assert SameLogKey((l.log + [stimulus.value])[|l.log|], stimulus.value.(taskId := taskId));
    }
  }

  // The promises about runs.

  /** Across restarts and overlapping workers, in every run: a Task leaves "working" at most once and has an artifact
      exactly when completed; its model calls are numbered 1, 2, 3 in order and there are at most three. */
  lemma TasksEndOnce(testControls: bool, before: seq<Op>, later: seq<Op>)
    ensures var l := Run(NewLedger(testControls), before); var l' := Run(l, later);
      && (forall k :: 0 <= k < |l.tasks| ==> (l.tasks[k].artifact.Some? <==> l.tasks[k].state.Completed?))
      && |l.tasks| <= |l'.tasks|
      && (forall k :: 0 <= k < |l.tasks| ==> l'.tasks[k].taskId == l.tasks[k].taskId && (!l.tasks[k].state.Working? ==>
            l'.tasks[k] == l.tasks[k]))
      && (forall k :: 0 <= k < |l.calls| ==> l.calls[k].number == CallCount(l.calls[..k + 1], l.calls[k].taskId))
    ensures forall taskId :: CallCount(Run(NewLedger(testControls), before).calls, taskId) <= MAX_CALLS
  {
    hide Run, Apply;
    NewLedgerInv(testControls);
    RunKeeps(NewLedger(testControls), before);
    var l := Run(NewLedger(testControls), before);
    RunKeeps(l, later);
    forall k | 0 <= k < |l.tasks| ensures TaskOk(l.tasks[k]) && TaskGrows(l.tasks[k], Run(l, later).tasks[k]) {}
    forall taskId ensures CallCount(l.calls, taskId) <= MAX_CALLS { CountBounded(l.calls, |l.calls|, taskId); }
  }

  lemma {:induction false} CountBounded(calls: seq<CallRow>, n: nat, taskId: string)
    requires n <= |calls|
    requires forall k :: 0 <= k < |calls| ==> calls[k].number == CallCount(calls[..k + 1], calls[k].taskId) <= MAX_CALLS
    ensures CallCount(calls[..n], taskId) <= MAX_CALLS && (n == |calls| ==> calls[..n] == calls)
  {
    if n > 0 {
      CountBounded(calls, n - 1, taskId);
      assert calls[..n][..n - 1] == calls[..n - 1];
      assert calls[n - 1].number == CallCount(calls[..n - 1 + 1], calls[n - 1].taskId);
    }
  }

  lemma LoggedIsServed(l: Ledger, log: seq<LogRow>, k: nat)
    requires Inv(l) && log <= l.log && k < |log|
    ensures exists i :: 0 <= i < |l.tasks| && Serves(l.tasks[i], log[k])
  {
    hide Serves;
    assert l.log[k] == log[k] && LogRowOk(l, l.log[k]);
    var i :| 0 <= i < |l.tasks| && Serves(l.tasks[i], log[k]);
  }

  /** In every run each stimulus and each context are bound at most once and stay bound; and a log row exists only for
      a completed Task, tells exactly what that Task serves, and is the only one of its Task. */
  lemma StimuliBindOnce(testControls: bool, before: seq<Op>, later: seq<Op>)
    ensures var l := Run(NewLedger(testControls), before); var l' := Run(l, later);
      && (forall i, k :: 0 <= i < k < |l.stimuli| && l.stimuli[i].boundContext.Some? ==>
            l.stimuli[i].boundContext != l.stimuli[k].boundContext)
      && |l.stimuli| <= |l'.stimuli|
      && (forall k :: 0 <= k < |l.stimuli| && l.stimuli[k].boundContext.Some? ==>
            l'.stimuli[k].boundContext == l.stimuli[k].boundContext)
      && l.log <= l'.log
      && (forall k :: 0 <= k < |l.log| ==> exists i :: 0 <= i < |l'.tasks| && Serves(l'.tasks[i], l.log[k]))
      && (forall i, k :: 0 <= i < k < |l.log| ==> l.log[i].taskId != l.log[k].taskId)
  {
    hide Run, Apply;
    NewLedgerInv(testControls);
    RunKeeps(NewLedger(testControls), before);
    var l := Run(NewLedger(testControls), before);
    RunKeeps(l, later);
    var l' := Run(l, later);
    forall k | 0 <= k < |l.log| ensures exists i :: 0 <= i < |l'.tasks| && Serves(l'.tasks[i], l.log[k]) {
      LoggedIsServed(l', l.log, k);
    }
    assert forall i, k :: 0 <= i < k < |l.stimuli| ==> l.stimuli[i].boundContext != l.stimuli[k].boundContext;
  }

  /** An armed stimulus goes to the context of the next new Task whose context no Task had before, and to no other. */
  lemma ArmedStimulusFindsItsContext(l: Ledger, r: Request, taskId: string, newContext: string)
    requires Inv(l) && Accept(l, r, taskId, newContext).0.Success? && Accept(l, r, taskId, newContext).0.value.1
    ensures var l' := Accept(l, r, taskId, newContext).1; var contextId := l'.tasks[|l.tasks|].contextId;
      && |l'.tasks| == |l.tasks| + 1 && |l'.stimuli| == |l.stimuli|
      && (BoundTo(l', contextId).Some? && BoundTo(l, contextId).None? <==>
            l.testControls && !KnowsContext(l, contextId) && Unbound(l).Some?)
      && forall k :: 0 <= k < |l.stimuli| && l'.stimuli[k] != l.stimuli[k] ==> Unbound(l) == Some(k)
  {
    hide TasksOk, CallsOk, LogOk;
    var l' := Accept(l, r, taskId, newContext).1;
    var contextId := l'.tasks[|l.tasks|].contextId;
    if Unbound(l).Some? && l'.stimuli != l.stimuli {
      assert l'.stimuli[Unbound(l).value].boundContext == Some(contextId);
    }
  }

  /** Resending a Message, at any later time, returns the Task it first made and changes nothing; resending its id with
      other content is refused and changes nothing. */
  lemma MessagesAreIdempotent(testControls: bool, before: seq<Op>, r: Request, taskId: string, newContext: string,
      between: seq<Op>,
      taskId': string, newContext': string, content: Content)
    requires Accept(Run(NewLedger(testControls), before), r, taskId, newContext).0.Success?
    ensures var first := Accept(Run(NewLedger(testControls), before), r, taskId, newContext);
      var l' := Run(first.1, between);
      Accept(l', Request(r.messageId, content), taskId', newContext') ==
        (if content == r.content then Success((first.0.value.0, false))
          else Failure("messageId reused with a different message"), l')
  {
    hide Run, CallsOk, StimuliOk, LogOk;
    var l := Run(NewLedger(testControls), before);
    NewLedgerInv(testControls);
    RunKeeps(NewLedger(testControls), before);
    AcceptKeeps(l, r, taskId, newContext);
    var l1 := Accept(l, r, taskId, newContext).1;
    RunKeeps(l1, between);
    var l' := Run(l1, between);
    var k := AcceptedAt(l, r, taskId, newContext);
    assert TaskGrows(l1.tasks[k], l'.tasks[k]);
    var found := TaskOfMessage(l', r.messageId);
    assert l'.tasks[k].messageId == r.messageId;
    assert found.value < k ==> Apart(l'.tasks[found.value], l'.tasks[k]);
  }

  lemma AcceptedAt(l: Ledger, r: Request, taskId: string, newContext: string) returns (k: nat)
    requires Accept(l, r, taskId, newContext).0.Success?
    ensures var (result, l1) := Accept(l, r, taskId, newContext);
      && k < |l1.tasks| && l1.tasks[k].messageId == r.messageId && l1.tasks[k].fingerprint == r.content
      && l1.tasks[k].taskId == result.value.0
  {
    k := if TaskOfMessage(l, r.messageId).Some? then TaskOfMessage(l, r.messageId).value else |l.tasks|;
  }
}
