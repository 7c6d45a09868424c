/** What the agent's ledger answers in every reachable state, said over its tables:
    prototype/temporal-factory/services/model_agent.py. */
module AgentAnswers {
  import opened Prelude
  import opened AgentLedger
  import opened AgentService

  ghost predicate HasMessage(l: Ledger, k: nat, messageId: string) {
    k < |l.tasks| && l.tasks[k].messageId == messageId
  }

  ghost predicate IsTask(l: Ledger, k: nat, taskId: string) { k < |l.tasks| && l.tasks[k].taskId == taskId }

  lemma FoundByMessage(l: Ledger, messageId: string)
    requires Inv(l)
    ensures forall k: nat :: HasMessage(l, k, messageId) ==> TaskOfMessage(l, messageId) == Some(k)
    ensures TaskOfMessage(l, messageId).Some? ==> HasMessage(l, TaskOfMessage(l, messageId).value, messageId)
  {
    hide CallsOk, StimuliOk, LogOk, TaskOk;
    var found := TaskOfMessage(l, messageId);
    assert forall k: nat :: HasMessage(l, k, messageId) ==> found.Some? && !(found.value < k);
  }

  lemma FoundById(l: Ledger, taskId: string)
    requires Inv(l)
    ensures forall k: nat :: IsTask(l, k, taskId) ==> TaskAt(l, taskId) == Some(k)
    ensures TaskAt(l, taskId).Some? ==> IsTask(l, TaskAt(l, taskId).value, taskId)
  {
    hide CallsOk, StimuliOk, LogOk, TaskOk;
    var found := TaskAt(l, taskId);
    assert forall k: nat :: IsTask(l, k, taskId) ==> found.Some? && !(found.value < k);
  }

  /** The Task of a Message not known before: working, without an artifact, in the Message's own context or a new
      one. */
  predicate Opened(row: TaskRow, r: Request, taskId: string, newContext: string) {
    && row.taskId == taskId && row.messageId == r.messageId && row.fingerprint == r.content
    && row.state.Working? && row.artifact.None?
    && row.contextId == (if r.content.contextId == None || r.content.contextId == Some("") then newContext
                         else r.content.contextId.value)
  }

  /** `accept`: a known Message is answered with its Task or refused, and changes nothing; a new one opens its Task. */
  ghost predicate AcceptTold(l: Ledger, r: Request, taskId: string, newContext: string, result: Result<(string, bool)>,
      l': Ledger)
  {
    if exists k: nat :: HasMessage(l, k, r.messageId) then
      && l' == l
      && forall k: nat :: HasMessage(l, k, r.messageId) ==>
           if l.tasks[k].fingerprint == r.content then result == Success((l.tasks[k].taskId, false))
           else result == Failure("messageId reused with a different message")
    else if exists k: nat :: IsTask(l, k, taskId) then result.Failure? && l' == l
    else
      && result == Success((taskId, true)) && |l'.tasks| == |l.tasks| + 1 && l'.tasks[..|l.tasks|] == l.tasks
      && Opened(l'.tasks[|l.tasks|], r, taskId, newContext)
      && l'.calls == l.calls && l'.log == l.log && |l'.stimuli| == |l.stimuli| && l'.testControls == l.testControls
  }

  lemma AcceptAnswers(testControls: bool, ops: seq<Op>, r: Request, taskId: string, newContext: string)
    ensures var l := Run(NewLedger(testControls), ops); var (result, l') := Accept(l, r, taskId, newContext);
      AcceptTold(l, r, taskId, newContext, result, l')
  {
    hide Run, Inv;
    NewLedgerInv(testControls);
    RunKeeps(NewLedger(testControls), ops);
    var l := Run(NewLedger(testControls), ops);
    FoundByMessage(l, r.messageId);
    FoundById(l, taskId);
  }

  predicate AboutArtifact(row: LogRow, taskId: string, artifact: Option<Artifact>) {
    && artifact.Some? && row.taskId == taskId
    && row.sha256 == artifact.value.sha256 && row.content == artifact.value.content
  }

  /** `finish`: it commits exactly when the Task is still working and a stimulus row, if there is one, is about this
      Task and tells what the artifact is. Then the Task is completed with the artifact, or failed without one, and
      the stimulus row is logged. Otherwise nothing changes. */
  ghost predicate FinishTold(l: Ledger, taskId: string, artifact: Option<Artifact>, stimulus: Option<LogRow>,
      result: Result<()>, l': Ledger)
  {
    var commits := (exists k: nat :: IsTask(l, k, taskId) && l.tasks[k].state.Working?)
      && (stimulus.None? || AboutArtifact(stimulus.value, taskId, artifact));
    && (result.Success? <==> commits)
    && (result.Failure? ==> l' == l)
    && (result.Success? ==>
          && l'.log == l.log + (if stimulus.Some? then [stimulus.value] else [])
          && l' == l.(tasks := l'.tasks, log := l'.log)
          && forall k: nat :: IsTask(l, k, taskId) ==>
               l'.tasks == l.tasks[k := l.tasks[k].(
                 state := if artifact.Some? then Completed else Failed, artifact := artifact)])
  }

  lemma FinishAnswers(testControls: bool, ops: seq<Op>, taskId: string, artifact: Option<Artifact>,
      stimulus: Option<LogRow>)
    ensures var l := Run(NewLedger(testControls), ops); var (result, l') := Finish(l, taskId, artifact, stimulus);
      FinishTold(l, taskId, artifact, stimulus, result, l')
  {
    hide Run, Inv;
    NewLedgerInv(testControls);
    RunKeeps(NewLedger(testControls), ops);
    FinishIsTold(Run(NewLedger(testControls), ops), taskId, artifact, stimulus);
  }

  lemma FinishIsTold(l: Ledger, taskId: string, artifact: Option<Artifact>, stimulus: Option<LogRow>)
    requires Inv(l)
    ensures var (result, l') := Finish(l, taskId, artifact, stimulus);
      FinishTold(l, taskId, artifact, stimulus, result, l')
  {
    hide Inv, LogAfter;
    FoundById(l, taskId);
    var k := TaskAt(l, taskId);
    if k.Some? && l.tasks[k.value].state.Working? {
      assert IsTask(l, k.value, taskId);
      if stimulus.Some? { StimulusCommits(l, k.value, taskId, artifact, stimulus.value); }
    }
  }

  lemma StimulusCommits(l: Ledger, k: nat, taskId: string, artifact: Option<Artifact>, stimulus: LogRow)
    requires Inv(l) && IsTask(l, k, taskId) && l.tasks[k].state.Working?
    ensures LogAfter(l.log, taskId, artifact, stimulus).Success? <==> AboutArtifact(stimulus, taskId, artifact)
    ensures LogAfter(l.log, taskId, artifact, stimulus).Success? ==>
      LogAfter(l.log, taskId, artifact, stimulus).value == l.log + [stimulus]
  {
    hide CallsOk, StimuliOk, Apart, LogRowOk, LogAfter, TaskOk;
    forall i | 0 <= i < |l.log| ensures l.log[i].taskId != taskId { NotLogged(l, i, k); }
    FirstRowIsLogged(l.log, taskId, artifact, stimulus);
  }

  /** A Task without a log row logs exactly a row that is about its artifact. */
  lemma FirstRowIsLogged(log: seq<LogRow>, taskId: string, artifact: Option<Artifact>, stimulus: LogRow)
    requires forall i :: 0 <= i < |log| ==> log[i].taskId != taskId
    ensures LogAfter(log, taskId, artifact, stimulus).Success? <==> AboutArtifact(stimulus, taskId, artifact)
    ensures LogAfter(log, taskId, artifact, stimulus).Success? ==>
      LogAfter(log, taskId, artifact, stimulus).value == log + [stimulus]
  {
  }

  /** The calls a Task has made. */
  ghost function CallsOf(l: Ledger, taskId: string): set<nat> {
    set k: nat | k < |l.calls| && l.calls[k].taskId == taskId
  }

  lemma {:induction false} CallsAreCounted(calls: seq<CallRow>, taskId: string)
    ensures CallCount(calls, taskId) == |set k: nat | k < |calls| && calls[k].taskId == taskId|
  {
    if calls != [] {
      var n: nat := |calls| - 1;
      CallsAreCounted(calls[..n], taskId);
      var before := set k: nat | k < |calls[..n]| && calls[..n][k].taskId == taskId;
      var all := set k: nat | k < |calls| && calls[k].taskId == taskId;
      if calls[n].taskId == taskId { assert all == before + {n}; } else { assert all == before; }
    }
  }

  /** `call_start`: a Task's call gets the next number, and its fourth is refused. */
  lemma StartAnswers(l: Ledger, taskId: string)
    ensures var (result, l') := CallStart(l, taskId);
      && (result.Success? <==> |CallsOf(l, taskId)| < 3)
      && (result.Failure? ==> l' == l)
      && (result.Success? ==>
            && result.value == |l.calls| && l'.calls == l.calls + [CallRow(taskId, |CallsOf(l, taskId)| + 1, None)]
            && l' == l.(calls := l'.calls))
  {
    CallsAreCounted(l.calls, taskId);
  }

  /** `arm`: a stimulus is armed, unbound and last, exactly when test controls are on, its claim has text and evidence,
      its revisions are all or a list of revision names, and no stimulus is waiting for a context. */
  lemma ArmAnswers(l: Ledger, text: string, evidence: seq<string>, revisions: Revisions)
    ensures var (result, l') := Arm(l, text, evidence, revisions);
      var valid := !Blank(text) && |evidence| > 0 && (forall i :: 0 <= i < |evidence| ==> evidence[i] != "")
        && (revisions.AllRevisions? || (|revisions.revisions| > 0 &&
              forall i :: 0 <= i < |revisions.revisions| ==> "r" <= revisions.revisions[i]));
      && (result.Success? <==>
            l.testControls && valid && forall k :: 0 <= k < |l.stimuli| ==> l.stimuli[k].boundContext.Some?)
      && (result.Failure? ==> l' == l)
      && (result.Success? ==>
            result.value == |l.stimuli| && l' == l.(stimuli := l.stimuli + [Stimulus(text, evidence, revisions, None)]))
  {
    if revisions.Only? {
      forall r ensures (r != "" && r[0] == 'r') <==> "r" <= r {}
      assert forall i :: 0 <= i < |revisions.revisions| ==> revisions.revisions[i] in revisions.revisions;
    }
    assert forall i :: 0 <= i < |evidence| ==> evidence[i] in evidence;
  }

  predicate FirstParsed(turns: seq<Turn>, left: nat, content: Document, i: int) {
    0 <= i < |turns| && i < left && turns[i] == Parsed(content) && forall j :: 0 <= j < i ==> turns[j].Unparsed?
  }

  /** The draft a Task gets is the first parsed, if every turn before it was merely unparsed, and the calls left reach
      that far. */
  lemma {:induction false} ProducedExactly(turns: seq<Turn>, left: nat, content: Document)
    ensures Produced(turns, left) == Some(content) <==> exists i :: FirstParsed(turns, left, content, i)
    decreases left
  {
    if turns != [] && left > 0 && turns[0].Parsed? && turns[0].content == content {
      assert FirstParsed(turns, left, content, 0);
    }
    if turns != [] && left > 0 && turns[0].Unparsed? {
      ProducedExactly(turns[1..], left - 1, content);
      if i :| FirstParsed(turns, left, content, i) { assert FirstParsed(turns[1..], left - 1, content, i - 1); }
      var rest, less := turns[1..], left - 1;
      if i :| FirstParsed(rest, less, content, i) {
        forall j | 0 <= j < i + 1 ensures turns[j].Unparsed? { assert j > 0 ==> turns[1..][j - 1].Unparsed?; }
        assert FirstParsed(turns, left, content, i + 1);
      }
    }
  }

  /** The stimulus due to a context in a reachable ledger is the one bound to it, if it covers the revision. */
  lemma DueExactly(testControls: bool, ops: seq<Op>, contextId: string, revision: string, k: nat)
    ensures var l := Run(NewLedger(testControls), ops);
      Due(l, contextId, revision) == Some(k) <==>
        && k < |l.stimuli| && l.stimuli[k].boundContext == Some(contextId)
        && (l.stimuli[k].revisions.AllRevisions? || revision in l.stimuli[k].revisions.revisions)
  {
    hide Run, TasksOk, CallsOk, LogOk;
    NewLedgerInv(testControls);
    RunKeeps(NewLedger(testControls), ops);
    var l := Run(NewLedger(testControls), ops);
    var found := BoundTo(l, contextId);
    if k < |l.stimuli| && l.stimuli[k].boundContext == Some(contextId) { assert found == Some(k); }
  }

  /** The row logged for a Task and a revision: in a reachable ledger a Task has one log row at most. */
  lemma LoggedExactly(testControls: bool, ops: seq<Op>, taskId: string, revision: string, k: nat)
    ensures var l := Run(NewLedger(testControls), ops);
      LoggedAt(l, taskId, revision) == Some(k) <==>
        k < |l.log| && l.log[k].taskId == taskId && l.log[k].revision == revision
  {
    hide Run, TasksOk, CallsOk, StimuliOk, LogRowOk;
    NewLedgerInv(testControls);
    RunKeeps(NewLedger(testControls), ops);
    var l := Run(NewLedger(testControls), ops);
    var found := LoggedAt(l, taskId, revision);
    if k < |l.log| && l.log[k].taskId == taskId && l.log[k].revision == revision { assert found == Some(k); }
  }
}
