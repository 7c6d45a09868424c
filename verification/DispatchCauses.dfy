/** Why each version of a row was written. Over every run, every version of every row after the first was caused by one
    event of one attempt of the action, and says what that event was: a pin that failed, a send without an answer, or
    the reply that the attempt received. The causes are said over events and replies, not through the functions of the
    attempt loop (prototype/temporal-factory/src/adapter.py:110-270) that compute the records. */
module DispatchCauses {
  import opened Prelude
  import opened Outcome
  import opened Dispatch
  import opened DispatchInvariant
  import opened DispatchSteps
  import opened DispatchRuns
  import opened DispatchTheorems
  import opened LostRaceExactly

  /** The Task is readable, in this context and, once its id is journaled, that very Task. */
  predicate Fits(task: Snapshot, b: Binding, taskId: Option<string>) {
    && task.id != "" && b.contextId == Some(task.contextId) && !task.state.TaskUnreadable?
    && (taskId == None || taskId == Some(task.id))
  }

  predicate Waits(pc: Pc) { pc.AwaitSend? || pc.AwaitGet? }

  /** Attempt `a` receives an answer. */
  predicate Receives(w: World, e: Event, a: nat) {
    e.Receive? && e.a == a && a in w.attempts && Waits(w.attempts[a].pc) && w.attempts[a].pc.request in w.net.replies
  }

  /** The Task it receives, if the answer is a Task that fits. */
  function HeardTask(w: World, e: Event, a: nat): Option<Snapshot> {
    if !Receives(w, e, a) then None
    else
      var pc := w.attempts[a].pc;
      var reply := w.net.replies[pc.request];
      if reply.TaskReply? && Fits(reply.task, pc.record.binding, pc.record.taskId) then Some(reply.task) else None
  }

  /** One artifact, of one text Part. */
  predicate SingleText(artifacts: seq<Artifact>, text: string) {
    artifacts == [[TextPart(text)]]
  }

  /** No artifact, or (among no more than 256) one without a Part. */
  predicate OutputMissing(artifacts: seq<Artifact>) {
    artifacts == [] || (|artifacts| <= 256 && [] in artifacts)
  }

  /** The receipt of a Task: it names the action, its run, definition and Message, the Task, its context and the pinned
      agent, its author, and holds the text. */
  predicate ReceiptTells(receipt: Receipt, b: Binding, taskId: string, text: string) {
    && receipt.actionId == Str(b.actionId) && receipt.runId == Str(b.runId)
    && receipt.definitionDigest == Str(b.definitionDigest)
    && b.messageId.Some? && receipt.messageId == Str(b.messageId.value)
    && receipt.taskId == Str(taskId) && |receipt.body| == 4 && receipt.body[0] == text
    && b.contextId == Some(receipt.body[2]) && b.pinnedIdentity == Some(receipt.body[3])
  }

  ghost predicate TellsText(r: OutcomeRecord, task: Snapshot) {
    && r.receipt.Some? && r.taskId == Some(task.id) && r.binding.contextId == Some(task.contextId)
    && exists text :: SingleText(task.artifacts, text) && ReceiptTells(r.receipt.value, r.binding, task.id, text)
  }

  /** Event e of attempt a is why an incident has this reason. */
  predicate Explains(v: Variant, w: World, e: Event, a: nat, reason: string)
    requires a in w.attempts
  {
    var t := w.attempts[a];
    var heard := HeardTask(w, e, a);
    || (reason == "pinned-agent-verification-failed" && e.PinFailed? && t.pc.Looping?)
    || (reason == "pinned-agent-capability-mismatch" && e.CapabilityMissing? && t.pc.Looping?)
    || (reason == "opaque-effect-unknown" && t.input.mode.Opaque?
        && ((e.Timeout? && t.pc.AwaitSend?) || (e.ReadBack? && t.pc == Inserted(false))))
    || (reason == "async-send-binding-inconsistent"
        && ((Receives(w, e, a) && t.pc.AwaitSend? && heard.None?)
            || (v.AsWritten? && GoesStale(w, e, a, t.input.actionId))))
    || (reason == "async-task-binding-inconsistent" && Receives(w, e, a) && t.pc.AwaitGet? && heard.None?)
    || (reason == "async-task-terminal-without-artifact"
        && t.pc.AwaitGet? && heard.Some? && heard.value.state.TaskEnded?)
    || (reason == "output.missing"
        && heard.Some? && heard.value.state.TaskCompleted? && OutputMissing(heard.value.artifacts))
    || (reason == "async-artifact-inconsistent" && heard.Some? && heard.value.state.TaskCompleted?
        && !OutputMissing(heard.value.artifacts) && !IsSingleText(heard.value.artifacts))
  }

  predicate IsSingleText(artifacts: seq<Artifact>) {
    |artifacts| == 1 && |artifacts[0]| == 1 && artifacts[0][0].TextPart?
  }

  /** Event e of attempt a, at world w, is why the record `next` was made. */
  ghost predicate Causes(v: Variant, w: World, e: Event, a: nat, next: OutcomeRecord) {
    && a in w.attempts && OfAttempt(e) && e.a == a
    && w.attempts[a].input.actionId == next.binding.actionId && w.attempts[a].input.mode == next.binding.receiver
    && var heard := HeardTask(w, e, a);
       match next.phase
       case Submitted => false
       case Unknown => e.Timeout? && w.attempts[a].pc.AwaitSend?
       case Working => w.attempts[a].pc.AwaitSend? && heard.Some? && next.taskId == Some(heard.value.id)
       case Confirmed => heard.Some? && heard.value.state.TaskCompleted? && TellsText(next, heard.value)
       case Incident => next.reason.Some? && Explains(v, w, e, a, next.reason.value)
  }

  /** What an attempt remembers until its put commits. */
  ghost predicate Remembers(w: World, e: Event, a: nat, next: OutcomeRecord, after: After) {
    && (after.TaskKnown? ==>
          && HeardTask(w, e, a) == Some(after.task) && w.attempts[a].pc.AwaitSend?
          && Fits(after.task, next.binding, next.taskId))
    && (after.OpaqueUnknown? ==> e.Timeout? && a in w.attempts && w.attempts[a].pc.AwaitSend?)
  }

  // What each step puts.

  /** The record a completed Task leads to: the receipt of its text, or an incident that says what is wrong with it. */
  ghost predicate Settles(next: OutcomeRecord, task: Snapshot) {
    if next.phase.Confirmed? then TellsText(next, task)
    else
      && next.phase.Incident? && next.reason.Some?
      && (next.reason.value == "output.missing" ==> OutputMissing(task.artifacts))
      && (next.reason.value == "async-artifact-inconsistent" ==>
            !OutputMissing(task.artifacts) && !IsSingleText(task.artifacts))
      && (next.reason.value == "output.missing" || next.reason.value == "async-artifact-inconsistent")
  }

  lemma FinishSettles(r: OutcomeRecord, task: Snapshot, at: string)
    requires r.phase.Working? && r.taskId == Some(task.id) && Fits(task, r.binding, r.taskId)
    requires task.state.TaskCompleted?
    requires r.binding.effectKind.A2A? && r.binding.messageId.Some? && r.binding.pinnedIdentity.Some?
    ensures var pc := Finish(r, task, at);
      pc.Putting? && pc.after.Finishing? && pc.next.binding == r.binding && Settles(pc.next, task)
  {
    ReceiptHoldsText(r, task, at);
  }

  lemma ReceiptHoldsText(r: OutcomeRecord, task: Snapshot, at: string)
    requires r.phase.Working? && r.taskId == Some(task.id) && Fits(task, r.binding, r.taskId)
    requires task.state.TaskCompleted?
    requires r.binding.effectKind.A2A? && r.binding.messageId.Some? && r.binding.pinnedIdentity.Some?
    ensures var receipt := CompletedReceipt(task, r, at);
      && (receipt.Success? <==> IsSingleText(task.artifacts))
      && (receipt.Success? ==>
            && SingleText(task.artifacts, task.artifacts[0][0].text) && Matching(r.binding, receipt.value)
            && ReceiptTells(receipt.value, r.binding, task.id, task.artifacts[0][0].text))
      && (receipt.Failure? ==>
            if OutputMissing(task.artifacts) then receipt.error == "output.missing"
            else receipt.error == "async-artifact-inconsistent")
  {
    if IsSingleText(task.artifacts) {
      var part := task.artifacts[0][0];
      assert part == TextPart(part.text) && task.artifacts[0] == [part] && task.artifacts == [task.artifacts[0]];
    }
    assert |"output.missing"| != |"async-artifact-inconsistent"|;
  }

  /** A put, as an attempt at `pc` is about to make it, was caused by this event. */
  ghost predicate PutCaused(v: Variant, w: World, e: Event, a: nat, pc: Pc) {
    Puts(pc) ==> Causes(v, w, e, a, pc.next) && Remembers(w, e, a, pc.next, pc.after)
  }

  lemma ReplyCauses(v: Variant, w: World, a: nat, at: string)
    requires Inv(w) && a in w.attempts
    ensures PutCaused(v, w, Receive(a, at), a, ReceiveStep(w, a, at).attempts[a].pc)
      || ReceiveStep(w, a, at).attempts[a] == w.attempts[a]
  {
    hide Inv, Finish, CompletedReceipt, Settles, Held;
    var t := w.attempts[a];
    if Receives(w, Receive(a, at), a) {
      AwaitingFacts(w, a);
      var r, reply := t.pc.record, w.net.replies[t.pc.request];
      if t.pc.AwaitSend? {
        SendReplyCauses(v, w, a, at);
      } else {
        PollReplyCauses(v, w, a, at);
      }
    }
  }

  /** What an attempt that waits knows of its record. */
  lemma AwaitingFacts(w: World, a: nat)
    requires Inv(w) && a in w.attempts && Waits(w.attempts[a].pc)
    ensures var t := w.attempts[a]; var r := t.pc.record;
      && r.binding.actionId == t.input.actionId && Open(r) && r.binding.receiver == t.input.mode
      && r.binding.effectKind.A2A? && r.binding.messageId.Some? && r.binding.contextId.Some?
      && r.binding.pinnedIdentity.Some?
      && (t.pc.AwaitSend? ==> r.taskId.None?) && (t.pc.AwaitGet? ==> r.phase.Working?)
  {
    hide Chain, AsyncStep, RowOk, PacketOk, TaskOk, AcceptedOk, OneSender, OneMessage, JournaledTaskOk, SendPending;
    var t := w.attempts[a];
    assert AttemptOk(w.journal, w.net, w.agents, t);
    HeldIsReady(w.journal, w.agents, t.input, t.pc.record);
  }

  lemma SendReplyCauses(v: Variant, w: World, a: nat, at: string)
    requires a in w.attempts && w.attempts[a].pc.AwaitSend? && Receives(w, Receive(a, at), a)
    requires var r := w.attempts[a].pc.record; var input := w.attempts[a].input;
      r.taskId.None? && Open(r) && r.binding.actionId == input.actionId && r.binding.receiver == input.mode
    ensures PutCaused(v, w, Receive(a, at), a,
      AfterSend(w.attempts[a].pc.record, w.net.replies[w.attempts[a].pc.request]))
  {
  }

  lemma PollReplyCauses(v: Variant, w: World, a: nat, at: string)
    requires a in w.attempts && w.attempts[a].pc.AwaitGet? && Receives(w, Receive(a, at), a)
    requires var r := w.attempts[a].pc.record;
      && Open(r) && r.phase.Working? && r.binding.actionId == w.attempts[a].input.actionId
      && r.binding.receiver == w.attempts[a].input.mode
      && r.binding.effectKind.A2A? && r.binding.messageId.Some? && r.binding.pinnedIdentity.Some?
    ensures PutCaused(v, w, Receive(a, at), a,
      AfterGet(w.attempts[a].pc.record, w.net.replies[w.attempts[a].pc.request], at))
  {
    hide Finish;
    var r, reply := w.attempts[a].pc.record, w.net.replies[w.attempts[a].pc.request];
    if reply.TaskReply? && Fits(reply.task, r.binding, r.taskId) && reply.task.state.TaskCompleted? {
      FinishSettles(r, reply.task, at);
    }
  }

  lemma LoopingFacts(w: World, a: nat)
    requires Inv(w) && a in w.attempts && w.attempts[a].pc.Looping?
    ensures var t := w.attempts[a];
      && t.pc.record.binding.actionId == t.input.actionId && t.pc.record.binding.receiver == t.input.mode
      && Open(t.pc.record)
  {
    hide Chain, AsyncStep, RowOk, PacketOk, TaskOk, AcceptedOk, OneSender, OneMessage, JournaledTaskOk;
    var t := w.attempts[a];
    assert AttemptOk(w.journal, w.net, w.agents, t);
    HeldIsReady(w.journal, w.agents, t.input, t.pc.record);
  }

  lemma PinCauses(v: Variant, w: World, a: nat, e: Event)
    requires Inv(w) && a in w.attempts && (e == PinFailed(a) || e == CapabilityMissing(a))
    ensures a in AttemptStep(v, w, e).attempts
    ensures PutCaused(v, w, e, a, AttemptStep(v, w, e).attempts[a].pc)
      || AttemptStep(v, w, e).attempts[a] == w.attempts[a]
  {
    hide Inv;
    if w.attempts[a].pc.Looping? { LoopingFacts(w, a); }
  }

  lemma TimeoutCauses(v: Variant, w: World, a: nat)
    requires Inv(w) && a in w.attempts
    ensures PutCaused(v, w, Timeout(a), a, TimeoutStep(w, a).attempts[a].pc)
      || TimeoutStep(w, a).attempts[a] == w.attempts[a]
  {
    hide Inv;
    if Waits(w.attempts[a].pc) { AwaitingFacts(w, a); }
  }

  lemma ReadBackCauses(v: Variant, w: World, a: nat)
    requires Inv(w) && a in w.attempts
    ensures PutCaused(v, w, ReadBack(a), a, ReadBackStep(w, a).attempts[a].pc)
      || ReadBackStep(w, a).attempts[a] == w.attempts[a]
  {
    hide Chain, AsyncStep, RowOk, PacketOk, TaskOk, AcceptedOk, OneSender, OneMessage, JournaledTaskOk, Version;
    var t := w.attempts[a];
    var id := t.input.actionId;
    if t.pc.Inserted? && id in w.journal.rows && SameBinding(w.journal.rows[id].binding, t.input) {
      RowIsHeld(w.journal, t.input);
      RowOfAction(w, id);
    }
  }

  lemma RowOfAction(w: World, id: string)
    requires Inv(w) && id in w.journal.rows
    ensures w.journal.rows[id].binding.actionId == id
  {
    hide AsyncStep, RowOk, PacketOk, TaskOk, AcceptedOk, OneSender, OneMessage, JournaledTaskOk;
    assert Chain(id, w.journal.history[id], w.journal.rows[id]);
    assert Version(id, w.journal.rows[id].binding, 0, w.journal.history[id][0]);
  }

  /** A stale put of a Task id is the cause of the incident built on it; any other stale put ends in a reread. */
  lemma StaleCauses(v: Variant, w: World, e: Event, a: nat)
    requires Inv(w) && a in w.attempts && Puts(w.attempts[a].pc)
    requires e.PutSelect? || e.PutUpdate?
    requires e.a == a && if e.PutSelect? then w.attempts[a].pc.Putting? else w.attempts[a].pc.Swapping?
    requires w.attempts[a].input.actionId in w.journal.rows
    requires var id := w.attempts[a].input.actionId;
      if e.PutSelect? then !Admissible(w.journal.rows[id], w.attempts[a].pc.next)
        else w.journal.rows[id] != w.attempts[a].pc.prior
    ensures PutCaused(v, w, e, a, AfterStale(v, w.attempts[a].pc.next, w.attempts[a].pc.after))
  {
    hide Inv, PutOk, Extends, Chain;
    PutsItsOwn(w, a);
  }

  /** What an attempt is about to put after its commit has the cause of what it committed. */
  lemma CommitCauses(v: Variant, w0: World, e0: Event, a: nat, input: Input, next: OutcomeRecord, after: After,
      at: string)
    requires Causes(v, w0, e0, a, next) && Remembers(w0, e0, a, next, after)
    requires next.binding.actionId == input.actionId && AfterFits(input, next, after)
    requires SameBinding(next.binding, input)
    requires next.binding.messageId.Some? && next.binding.contextId.Some?
    ensures PutCaused(v, w0, e0, a, AfterPut(next, after, at))
  {
    hide Finish, Settles;
    if after.TaskKnown? && after.task.state.TaskCompleted? {
      FinishSettles(next, after.task, at);
      SettledIsCaused(v, w0, e0, a, Finish(next, after.task, at).next, after.task);
    }
  }

  lemma SettledIsCaused(v: Variant, w: World, e: Event, a: nat, next: OutcomeRecord, task: Snapshot)
    requires a in w.attempts && HeardTask(w, e, a) == Some(task) && task.state.TaskCompleted? && Settles(next, task)
    requires w.attempts[a].input.actionId == next.binding.actionId && w.attempts[a].input.mode == next.binding.receiver
    requires OfAttempt(e) && e.a == a
    ensures Causes(v, w, e, a, next)
  {
  }

  // Over runs.

  /** What an attempt's own step leaves it putting: what it put before, what the step caused, or what follows a
      commit. */
  ghost predicate Carried(v: Variant, w: World, e: Event, a: nat, pc: Pc)
    requires a in w.attempts
  {
    var was := w.attempts[a].pc;
    || PutCaused(v, w, e, a, pc)
    || (Puts(was) && Puts(pc) && pc.next == was.next && pc.after == was.after)
    || (was.Swapping? && e.PutUpdate? && pc == AfterPut(was.next, was.after, e.at))
  }

  lemma PutStepCarries(v: Variant, w: World, e: Event)
    requires Inv(w) && (e.PutSelect? || e.PutUpdate?) && e.a in w.attempts
    ensures e.a in AttemptStep(v, w, e).attempts && Carried(v, w, e, e.a, AttemptStep(v, w, e).attempts[e.a].pc)
  {
    hide Inv, AfterPut, AfterStale, Causes, Remembers, Admissible, PutOk, Extends, Chain;
    var t := w.attempts[e.a];
    if Puts(t.pc) {
      PutsItsOwn(w, e.a);
      var row := w.journal.rows[t.input.actionId];
      if (e.PutSelect? && t.pc.Putting? && !Admissible(row, t.pc.next))
        || (e.PutUpdate? && t.pc.Swapping? && row != t.pc.prior)
      {
        StaleCauses(v, w, e, e.a);
      }
    }
  }

  lemma QuietCarries(v: Variant, w: World, e: Event)
    requires OfAttempt(e) && e.a in w.attempts
    requires e.BindContext? || e.Insert? || e.Deadline? || e.Verified? || e.EmitGet? || e.Reread? || e.Crash?
    ensures e.a in AttemptStep(v, w, e).attempts && Carried(v, w, e, e.a, AttemptStep(v, w, e).attempts[e.a].pc)
  {
    hide Submission, BindContextRow, InsertRow, Emit, Honest, Causes, Remembers, AfterPut;
  }

  lemma OwnStepCarries(v: Variant, w: World, e: Event)
    requires Inv(w) && OfAttempt(e) && e.a in w.attempts
    ensures e.a in AttemptStep(v, w, e).attempts && Carried(v, w, e, e.a, AttemptStep(v, w, e).attempts[e.a].pc)
  {
    hide Inv, PutSelectStep, PutUpdateStep, ReceiveStep, TimeoutStep, ReadBackStep, BindContextStep, InsertStep,
      IncidentStep, VerifiedStep, EmitGetStep, RereadStep, AfterPut, Causes, Remembers, Honest;
    KeepsAttempt(v, w, e);
    if e.PutSelect? || e.PutUpdate? { PutStepCarries(v, w, e); }
    else if e.Receive? { ReplyCauses(v, w, e.a, e.at); }
    else if e.Timeout? { TimeoutCauses(v, w, e.a); }
    else if e.ReadBack? { ReadBackCauses(v, w, e.a); }
    else if e.PinFailed? || e.CapabilityMissing? { PinCauses(v, w, e.a, e); }
    else { QuietCarries(v, w, e); }
  }

  /** A step leaves an attempt its arguments. */
  lemma KeepsAttempt(v: Variant, w: World, e: Event)
    requires OfAttempt(e) && e.a in w.attempts
    ensures e.a in AttemptStep(v, w, e).attempts
    ensures AttemptStep(v, w, e).attempts[e.a].input == w.attempts[e.a].input
    ensures forall a :: a in w.attempts && a != e.a ==>
      a in AttemptStep(v, w, e).attempts && AttemptStep(v, w, e).attempts[a] == w.attempts[a]
    ensures forall a :: a in AttemptStep(v, w, e).attempts ==> a in w.attempts
  {
    hide AfterUncertainSend, Decide, Submission, BindContextRow, Emit, InsertRow, AfterPut, AfterSend, AfterGet,
      AfterStale,
      Commit, PutOrRaise;
  }

  /** Event k of the run caused the record. */
  ghost predicate CausedAt(v: Variant, idempotent: set<string>, events: seq<Event>, n: nat, k: nat, a: nat,
      next: OutcomeRecord)
  {
    k < n <= |events| && Causes(v, Moment(v, idempotent, events, k), events[k], a, next)
  }

  ghost predicate PutCausedAt(v: Variant, idempotent: set<string>, events: seq<Event>, n: nat, k: nat, a: nat, pc: Pc) {
    k < n <= |events| && PutCaused(v, Moment(v, idempotent, events, k), events[k], a, pc)
  }

  /** Every put under way has a cause. */
  ghost predicate PutsAreCaused(v: Variant, idempotent: set<string>, events: seq<Event>, n: nat)
    requires n <= |events|
  {
    var w := Moment(v, idempotent, events, n);
    forall a :: a in w.attempts && Puts(w.attempts[a].pc) ==>
      exists k :: PutCausedAt(v, idempotent, events, n, k, a, w.attempts[a].pc)
  }

  lemma PutsAreOwn(w: World, a: nat)
    requires Inv(w) && a in w.attempts && w.attempts[a].pc.Swapping?
    ensures var t := w.attempts[a]; var next := t.pc.next;
      && next.binding.actionId == t.input.actionId && AfterFits(t.input, next, t.pc.after)
      && SameBinding(next.binding, t.input)
      && next.binding.messageId.Some? && next.binding.contextId.Some?
      && t.input.actionId in w.journal.history && 1 <= next.sequence <= |w.journal.history[t.input.actionId]|
  {
    hide Inv;
    PutsItsOwn(w, a);
    var t := w.attempts[a];
    var id := t.input.actionId;
    var prev := w.journal.history[id][t.pc.next.sequence - 1];
    assert Version(id, w.journal.rows[id].binding, t.pc.next.sequence - 1, prev);
    AsyncStepFacts(prev, t.pc.next);
  }

  lemma PutCausedNext(v: Variant, idempotent: set<string>, events: seq<Event>, n: nat, a: nat)
    requires 0 < n <= |events| && PutsAreCaused(v, idempotent, events, n - 1)
    requires Inv(Moment(v, idempotent, events, n - 1))
    requires var w' := Moment(v, idempotent, events, n); a in w'.attempts && Puts(w'.attempts[a].pc)
    ensures exists k :: PutCausedAt(v, idempotent, events, n, k, a, Moment(v, idempotent, events, n).attempts[a].pc)
  {
    hide Moment, Inv, Step, PutCaused, AttemptStep;
    MomentNext(v, idempotent, events, n - 1);
    var w, w', e := Moment(v, idempotent, events, n - 1), Moment(v, idempotent, events, n), events[n - 1];
    StepIsOf(v, w, e, a);
    if a in w.attempts && OfAttempt(e) && e.a == a {
      OwnStepCarries(v, w, e);
      var pc, pc' := w.attempts[a].pc, w'.attempts[a].pc;
      if PutCaused(v, w, e, a, pc') {
        assert PutCausedAt(v, idempotent, events, n, n - 1, a, pc');
      } else {
        var k :| PutCausedAt(v, idempotent, events, n - 1, k, a, pc);
        PutFollows(v, idempotent, events, n, k, a, w, pc, pc', e);
      }
    } else {
      var k :| PutCausedAt(v, idempotent, events, n - 1, k, a, w.attempts[a].pc);
      assert PutCausedAt(v, idempotent, events, n, k, a, w'.attempts[a].pc);
    }
  }

  /** Only an attempt's own step moves it; a new one puts nothing. */
  lemma StepIsOf(v: Variant, w: World, e: Event, a: nat)
    requires a in Step(v, w, e).attempts
    ensures a !in w.attempts ==> !Puts(Step(v, w, e).attempts[a].pc)
    ensures a in w.attempts && !(OfAttempt(e) && e.a == a) ==> Step(v, w, e).attempts[a] == w.attempts[a]
    ensures a in w.attempts && OfAttempt(e) && e.a == a ==> Step(v, w, e) == AttemptStep(v, w, e)
  {
    hide AttemptStep, Handle;
    if OfAttempt(e) && e.a in w.attempts { KeepsAttempt(v, w, e); }
  }

  /** A put that goes on, or that follows a commit, has the cause of the one before it. */
  lemma PutFollows(v: Variant, idempotent: set<string>, events: seq<Event>, n: nat, k: nat, a: nat, w: World, pc: Pc,
      pc': Pc,
      e: Event)
    requires 0 < n <= |events| && PutCausedAt(v, idempotent, events, n - 1, k, a, pc) && Puts(pc)
    requires Inv(w) && a in w.attempts && w.attempts[a].pc == pc
    requires || (Puts(pc') && pc'.next == pc.next && pc'.after == pc.after)
      || (pc.Swapping? && e.PutUpdate? && pc' == AfterPut(pc.next, pc.after, e.at))
    ensures PutCausedAt(v, idempotent, events, n, k, a, pc')
  {
    hide Moment, Inv, AfterPut;
    if pc.Swapping? && !(Puts(pc') && pc'.next == pc.next && pc'.after == pc.after) {
      PutsAreOwn(w, a);
      var w0 := Moment(v, idempotent, events, k);
      CommitCauses(v, w0, events[k], a, w.attempts[a].input, pc.next, pc.after, e.at);
    }
  }

  lemma {:induction false} PutsAlwaysCaused(v: Variant, idempotent: set<string>, events: seq<Event>, n: nat)
    requires n <= |events|
    ensures PutsAreCaused(v, idempotent, events, n)
  {
    hide Moment, Inv, Step, PutCausedAt, JournalGrows;
    var w' := Moment(v, idempotent, events, n);
    if n == 0 {
      FirstMoment(v, idempotent, events);
    } else {
      PutsAlwaysCaused(v, idempotent, events, n - 1);
      MomentsGrow(v, idempotent, events, n - 1, n);
      forall a | a in w'.attempts && Puts(w'.attempts[a].pc)
        ensures exists k :: PutCausedAt(v, idempotent, events, n, k, a, w'.attempts[a].pc)
      {
        PutCausedNext(v, idempotent, events, n, a);
      }
    }
  }

  /** A step adds a version only by committing what an attempt is swapping in. */
  ghost predicate CommitsVersion(w: World, e: Event, id: string, r: OutcomeRecord) {
    && e.PutUpdate? && e.a in w.attempts && w.attempts[e.a].pc.Swapping?
    && w.attempts[e.a].pc.next == r && r.binding.actionId == id
  }

  lemma VersionsComeFromCommits(v: Variant, w: World, e: Event, id: string, j: nat)
    requires Inv(w) && id in Step(v, w, e).journal.history && 1 <= j < |Step(v, w, e).journal.history[id]|
    ensures var h' := Step(v, w, e).journal.history[id];
      (id in w.journal.history && j < |w.journal.history[id]| && w.journal.history[id][j] == h'[j])
      || CommitsVersion(w, e, id, h'[j])
  {
    hide Inv, AfterPut, AfterStale, Submission;
    if !e.BindContext? && !e.Insert? && !e.PutUpdate? { QuietStep(v, w, e); }
  }

  ghost predicate VersionCaused(v: Variant, idempotent: set<string>, events: seq<Event>, n: nat, r: OutcomeRecord) {
    exists k, a :: CausedAt(v, idempotent, events, n, k, a, r)
  }

  /** Every version of every row, after its first, was caused by one event of one attempt of its action. */
  lemma {:induction false} EveryVersionIsCaused(v: Variant, idempotent: set<string>, events: seq<Event>, n: nat,
      id: string, j: nat)
    requires n <= |events| && id in Moment(v, idempotent, events, n).journal.history
    requires 1 <= j < |Moment(v, idempotent, events, n).journal.history[id]|
    ensures VersionCaused(v, idempotent, events, n, Moment(v, idempotent, events, n).journal.history[id][j])
  {
    hide Moment, Inv, Step, Causes, JournalGrows, PutCaused;
    FirstMoment(v, idempotent, events);
    MomentNext(v, idempotent, events, n - 1);
    MomentsGrow(v, idempotent, events, n - 1, n);
    var w, e := Moment(v, idempotent, events, n - 1), events[n - 1];
    var r := Moment(v, idempotent, events, n).journal.history[id][j];
    VersionsComeFromCommits(v, w, e, id, j);
    if id in w.journal.history && j < |w.journal.history[id]| && w.journal.history[id][j] == r {
      EveryVersionIsCaused(v, idempotent, events, n - 1, id, j);
      var k, a :| CausedAt(v, idempotent, events, n - 1, k, a, r);
      assert CausedAt(v, idempotent, events, n, k, a, r);
    } else {
      PutsAlwaysCaused(v, idempotent, events, n - 1);
      var k :| PutCausedAt(v, idempotent, events, n - 1, k, e.a, w.attempts[e.a].pc);
      PutIsCaused(v, idempotent, events, n, k, e.a, w.attempts[e.a].pc);
    }
  }

  lemma PutIsCaused(v: Variant, idempotent: set<string>, events: seq<Event>, n: nat, k: nat, a: nat, pc: Pc)
    requires 0 < n <= |events| && PutCausedAt(v, idempotent, events, n - 1, k, a, pc) && Puts(pc)
    ensures CausedAt(v, idempotent, events, n, k, a, pc.next)
  {
    hide Moment, Causes;
  }

  // Replies are true.

  /** The Task as some agent held it. */
  predicate Holds(g: Agents, task: Snapshot) {
    task.id in g.tasks && var row := g.tasks[task.id];
    task.contextId == row.contextId && task.state == row.state && task.artifacts == row.artifacts
  }

  /** Every Task in a reply is one an agent held at some moment. */
  ghost predicate RepliesTrue(v: Variant, idempotent: set<string>, events: seq<Event>, n: nat)
    requires n <= |events|
  {
    var w := Moment(v, idempotent, events, n);
    forall m :: m in w.net.replies && w.net.replies[m].TaskReply? ==>
      HeldAtSome(v, idempotent, events, n, w.net.replies[m].task)
  }

  ghost predicate HeldAtSome(v: Variant, idempotent: set<string>, events: seq<Event>, n: nat, task: Snapshot)
    requires n <= |events|
  {
    exists j: nat :: j <= n && Holds(Moment(v, idempotent, events, j).agents, task)
  }

  /** A step makes no reply up: an answer is the Task as the agent holds it. */
  lemma ReplyIsHeld(v: Variant, w: World, e: Event, m: nat)
    requires m in Step(v, w, e).net.replies && Step(v, w, e).net.replies[m].TaskReply?
    ensures var w' := Step(v, w, e);
      (m in w.net.replies && w'.net.replies[m] == w.net.replies[m]) || Holds(w'.agents, w'.net.replies[m].task)
  {
    hide AttemptStep;
    if OfAttempt(e) && e.a in w.attempts { OwnStepKeepsReplies(v, w, e); }
  }

  lemma OwnStepKeepsReplies(v: Variant, w: World, e: Event)
    requires OfAttempt(e) && e.a in w.attempts
    ensures AttemptStep(v, w, e).net.replies == w.net.replies && AttemptStep(v, w, e).agents == w.agents
  {
    hide AfterUncertainSend, Decide, Submission, BindContextRow, InsertRow, AfterPut, AfterSend, AfterGet, AfterStale,
      Commit, PutOrRaise;
  }

  lemma {:induction false} RepliesAreTrue(v: Variant, idempotent: set<string>, events: seq<Event>, n: nat)
    requires n <= |events|
    ensures RepliesTrue(v, idempotent, events, n)
  {
    hide Moment, Step, Holds;
    FirstMoment(v, idempotent, events);
    if n > 0 {
      RepliesAreTrue(v, idempotent, events, n - 1);
      MomentNext(v, idempotent, events, n - 1);
      var w, w' := Moment(v, idempotent, events, n - 1), Moment(v, idempotent, events, n);
      forall m | m in w'.net.replies && w'.net.replies[m].TaskReply?
        ensures HeldAtSome(v, idempotent, events, n, w'.net.replies[m].task)
      {
        ReplyIsHeld(v, w, events[n - 1], m);
        if Holds(w'.agents, w'.net.replies[m].task) {
          assert n <= n;
        } else {
          var j: nat :| j <= n - 1 && Holds(Moment(v, idempotent, events, j).agents, w'.net.replies[m].task);
          assert j <= n;
        }
      }
    }
  }

  // What a caller is told.

  /** Tasks stay, and stay their actions'. */
  ghost predicate TasksStay(g: Agents, g': Agents) {
    forall t :: t in g.tasks ==> t in g'.tasks && g'.tasks[t].origin == g.tasks[t].origin
  }

  lemma StepKeepsTasks(v: Variant, w: World, e: Event)
    requires Inv(w)
    ensures TasksStay(w.agents, Step(v, w, e).agents)
  {
    hide Inv, AttemptStep;
    if OfAttempt(e) {
      if e.a in w.attempts { OwnStepKeepsReplies(v, w, e); }
    } else if e.Deliver? && e.request in w.net.inflight && e.uuid !in w.used {
      UnusedIsNew(w, e.uuid);
    }
  }

  lemma UnusedIsNew(w: World, uuid: string)
    requires Inv(w) && uuid !in w.used
    ensures uuid !in w.agents.tasks
  {
    hide JournalOk, AttemptsOk, NetworkOk, SendersOk, TrafficOk;
    assert uuid in w.agents.tasks ==> TaskOk(w.journal.rows, w.agents, w.used, uuid, w.agents.tasks[uuid]);
  }

  lemma {:induction false} TasksStayOnward(v: Variant, idempotent: set<string>, events: seq<Event>, k: nat, m: nat)
    requires k <= m <= |events|
    ensures TasksStay(Moment(v, idempotent, events, k).agents, Moment(v, idempotent, events, m).agents)
  {
    hide Moment, Inv, Step, JournalGrows;
    if k < m {
      TasksStayOnward(v, idempotent, events, k, m - 1);
      MomentNext(v, idempotent, events, m - 1);
      MomentsGrow(v, idempotent, events, m - 1, m);
      StepKeepsTasks(v, Moment(v, idempotent, events, m - 1), events[m - 1]);
    }
  }

  /** The receipt is that of the action's own Task, completed with the one text the receipt holds. */
  ghost predicate ReceiptOf(g: Agents, id: string, row: OutcomeRecord) {
    && row.receipt.Some? && row.taskId.Some? && TaskOf(g, id, row.taskId.value)
    && var task := g.tasks[row.taskId.value];
       task.state.TaskCompleted? && Some(task.contextId) == row.binding.contextId
       && exists text ::
         SingleText(task.artifacts, text) && ReceiptTells(row.receipt.value, row.binding, row.taskId.value, text)
  }

  ghost predicate ReceiptTrue(v: Variant, idempotent: set<string>, events: seq<Event>, id: string, row: OutcomeRecord) {
    exists j: nat :: j <= |events| && ReceiptOf(Moment(v, idempotent, events, j).agents, id, row)
  }

  lemma RowIsAVersion(w: World, id: string)
    requires Inv(w) && id in w.journal.rows && w.journal.rows[id].Terminal()
    ensures id in w.journal.history && |w.journal.history[id]| >= 2
    ensures w.journal.history[id][|w.journal.history[id]| - 1] == w.journal.rows[id]
    ensures w.journal.rows[id].binding.actionId == id
    ensures w.journal.rows[id].taskId.Some? ==> TaskOf(w.agents, id, w.journal.rows[id].taskId.value)
  {
    hide AsyncStep, RowOk, PacketOk, TaskOk, AcceptedOk, OneSender, OneMessage, AttemptOk;
    var h := w.journal.history[id];
    assert Chain(id, h, w.journal.rows[id]);
    assert JournaledTaskOk(w.agents, id, h[|h| - 1]);
  }

  lemma TerminalIsCaused(v: Variant, idempotent: set<string>, events: seq<Event>, id: string)
    requires var j := Run(v, Initial(idempotent), events).journal; id in j.rows && j.rows[id].Terminal()
    ensures VersionCaused(v, idempotent, events, |events|, Run(v, Initial(idempotent), events).journal.rows[id])
  {
    hide Run, Inv, VersionCaused;
    ReachableInv(v, idempotent, events);
    var w := Run(v, Initial(idempotent), events);
    FirstMoment(v, idempotent, events);
    RowIsAVersion(w, id);
    EveryVersionIsCaused(v, idempotent, events, |events|, id, |w.journal.history[id]| - 1);
  }

  /** In every run, the receipt of a confirmed row is true: at some moment of the run the action's Task was completed,
      in the action's context, with a single artifact of a single text Part, and the receipt holds that text and names
      that Task, the action, its run, its definition and its Message. */
  lemma ReceiptsAreTrue(v: Variant, idempotent: set<string>, events: seq<Event>, id: string)
    requires var j := Run(v, Initial(idempotent), events).journal; id in j.rows && j.rows[id].phase.Confirmed?
    ensures ReceiptTrue(v, idempotent, events, id, Run(v, Initial(idempotent), events).journal.rows[id])
  {
    hide Run, Inv, Moment, SingleText, ReceiptTells, Fits;
    var row := Run(v, Initial(idempotent), events).journal.rows[id];
    TerminalIsCaused(v, idempotent, events, id);
    ReachableInv(v, idempotent, events);
    FirstMoment(v, idempotent, events);
    RowIsAVersion(Run(v, Initial(idempotent), events), id);
    var k: nat, a: nat :| CausedAt(v, idempotent, events, |events|, k, a, row);
    var w := Moment(v, idempotent, events, k);
    var task := HeardTask(w, events[k], a).value;
    HeardIsHeld(v, idempotent, events, k, a, row, task);
  }

  lemma HeardIsHeld(v: Variant, idempotent: set<string>, events: seq<Event>, k: nat, a: nat, row: OutcomeRecord,
      task: Snapshot)
    requires k < |events| && HeardTask(Moment(v, idempotent, events, k), events[k], a) == Some(task)
    requires task.state.TaskCompleted? && TellsText(row, task)
    requires var g := Moment(v, idempotent, events, |events|).agents; TaskOf(g, row.binding.actionId, task.id)
    ensures ReceiptTrue(v, idempotent, events, row.binding.actionId, row)
  {
    hide Run, Inv, Moment;
    RepliesAreTrue(v, idempotent, events, k);
    var j: nat :| j <= k && Holds(Moment(v, idempotent, events, j).agents, task);
    TasksStayOnward(v, idempotent, events, j, |events|);
    assert ReceiptOf(Moment(v, idempotent, events, j).agents, row.binding.actionId, row);
  }

  /** A completed Task is not worked again: what it carries stays, as the ledger of the shipped agent keeps it. */
  ghost predicate CompletedStays(g: Agents, g': Agents) {
    forall t :: t in g.tasks && g.tasks[t].state.TaskCompleted? ==>
      t in g'.tasks && g'.tasks[t].state.TaskCompleted? && g'.tasks[t].artifacts == g.tasks[t].artifacts
      && g'.tasks[t].contextId == g.tasks[t].contextId && g'.tasks[t].origin == g.tasks[t].origin
  }

  ghost predicate CompletedTasksLast(v: Variant, idempotent: set<string>, events: seq<Event>) {
    forall n: nat :: n < |events| ==>
      CompletedStays(Moment(v, idempotent, events, n).agents,
        Step(v, Moment(v, idempotent, events, n), events[n]).agents)
  }

  lemma {:induction false} LastsOnward(v: Variant, idempotent: set<string>, events: seq<Event>, k: nat, m: nat)
    requires k <= m <= |events| && CompletedTasksLast(v, idempotent, events)
    ensures CompletedStays(Moment(v, idempotent, events, k).agents, Moment(v, idempotent, events, m).agents)
  {
    hide Moment, Step;
    if k < m {
      LastsOnward(v, idempotent, events, k, m - 1);
      MomentNext(v, idempotent, events, m - 1);
    }
  }

  /** Where completed Tasks are not worked again, the receipt of a confirmed row is that of the Task as it now
      stands. */
  lemma ReceiptIsTheTasks(v: Variant, idempotent: set<string>, events: seq<Event>, id: string)
    requires var j := Run(v, Initial(idempotent), events).journal; id in j.rows && j.rows[id].phase.Confirmed?
    requires CompletedTasksLast(v, idempotent, events)
    ensures var w := Run(v, Initial(idempotent), events); ReceiptOf(w.agents, id, w.journal.rows[id])
  {
    hide Run, Moment, Step;
    var w := Run(v, Initial(idempotent), events);
    ReceiptsAreTrue(v, idempotent, events, id);
    FirstMoment(v, idempotent, events);
    var j: nat :| j <= |events| && ReceiptOf(Moment(v, idempotent, events, j).agents, id, w.journal.rows[id]);
    LastsOnward(v, idempotent, events, j, |events|);
  }

  /** In every run, what an attempt returns is the row's own end. A returned receipt is that of the confirmed row, and
      so true; an unresolved answer names the action, the row's Task and the reason of its incident, which some event of
      an attempt of the action explains. */
  lemma AnswersAreTrue(v: Variant, idempotent: set<string>, events: seq<Event>, a: nat)
    requires var w := Run(v, Initial(idempotent), events); a in w.attempts && DecidedAnswer(w.attempts[a].pc)
    ensures var w := Run(v, Initial(idempotent), events); var id := w.attempts[a].input.actionId;
      var answer := w.attempts[a].pc.answer;
      && id in w.journal.rows
      && var row := w.journal.rows[id];
         && (answer.Returned? ==>
               && row.phase.Confirmed? && row.receipt.Some? && answer.receipt == row.receipt
               && ReceiptTrue(v, idempotent, events, id, row))
         && (answer.Unresolved? ==>
               && row.phase.Incident? && row.reason.Some? && answer.reason == row.reason
               && answer.actionId == id && answer.taskId == row.taskId
               && ReasonExplained(v, idempotent, events, id, row.reason.value))
  {
    hide Run, Inv, Moment, ReceiptTrue, Causes, JournalOk, NetworkOk, AgentsOk;
    var w := Run(v, Initial(idempotent), events);
    var id := w.attempts[a].input.actionId;
    ReachableInv(v, idempotent, events);
    AnswerIsTheRow(w, a);
    RowIsAVersion(w, id);
    TerminalIsCaused(v, idempotent, events, id);
    if w.journal.rows[id].phase.Confirmed? {
      ReceiptsAreTrue(v, idempotent, events, id);
      TrueReceiptExists(v, idempotent, events, id, w.journal.rows[id]);
    } else {
      IncidentExplained(v, idempotent, events, id, w.journal.rows[id]);
    }
  }

  lemma TrueReceiptExists(v: Variant, idempotent: set<string>, events: seq<Event>, id: string, row: OutcomeRecord)
    requires ReceiptTrue(v, idempotent, events, id, row)
    ensures row.receipt.Some?
  {
  }

  lemma AnswerIsTheRow(w: World, a: nat)
    requires Inv(w) && a in w.attempts && DecidedAnswer(w.attempts[a].pc)
    ensures var id := w.attempts[a].input.actionId; var answer := w.attempts[a].pc.answer;
      && id in w.journal.rows && w.journal.rows[id].Terminal()
      && (answer.Returned? <==> w.journal.rows[id].phase.Confirmed?)
      && (answer.Returned? ==> answer.receipt == w.journal.rows[id].receipt)
      && (answer.Unresolved? ==>
            && answer.reason == w.journal.rows[id].reason && answer.taskId == w.journal.rows[id].taskId
            && answer.actionId == w.journal.rows[id].binding.actionId)
  {
    hide JournalOk, NetworkOk, AgentsOk, SendersOk, TrafficOk, Held, PutOk, SendPending;
    assert AttemptOk(w.journal, w.net, w.agents, w.attempts[a]);
  }

  /** Some event of an attempt of the action is why it ended in an incident with this reason. */
  ghost predicate ReasonExplained(v: Variant, idempotent: set<string>, events: seq<Event>, id: string, reason: string) {
    exists k, a :: ExplainedAt(v, idempotent, events, id, reason, k, a)
  }

  ghost predicate ExplainedAt(v: Variant, idempotent: set<string>, events: seq<Event>, id: string, reason: string,
      k: nat,
      a: nat)
  {
    && k < |events| && a in Moment(v, idempotent, events, k).attempts
    && Moment(v, idempotent, events, k).attempts[a].input.actionId == id && OfAttempt(events[k]) && events[k].a == a
    && Explains(v, Moment(v, idempotent, events, k), events[k], a, reason)
  }

  lemma IncidentExplained(v: Variant, idempotent: set<string>, events: seq<Event>, id: string, row: OutcomeRecord)
    requires VersionCaused(v, idempotent, events, |events|, row) && row.phase.Incident? && row.binding.actionId == id
    ensures row.reason.Some? && ReasonExplained(v, idempotent, events, id, row.reason.value)
  {
    hide Moment, Explains;
    var k: nat, a: nat :| CausedAt(v, idempotent, events, |events|, k, a, row);
    assert ExplainedAt(v, idempotent, events, id, row.reason.value, k, a);
  }
}
