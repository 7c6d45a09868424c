/** What each event of an attempt decides, exactly, in every world the invariant allows: the other half of the causes.
    DispatchCauses says that whatever is written was called for; these lemmas say that what is called for is done. */
module DispatchDecisions {
  import opened Prelude
  import opened Outcome
  import opened Dispatch
  import opened DispatchInvariant
  import opened DispatchSteps
  import opened DispatchTheorems
  import opened LostRaceExactly
  import opened DispatchCauses

  /** The attempt is about to put `r`'s incident with this reason. */
  predicate PutsIncident(pc: Pc, r: OutcomeRecord, reason: string) {
    && pc.Putting? && pc.after.Finishing? && pc.next.phase.Incident? && pc.next.reason == Some(reason)
    && Succeeds(pc.next, r) && pc.next.taskId == r.taskId
  }

  /** `next` is the next version after r. */
  predicate Succeeds(next: OutcomeRecord, r: OutcomeRecord) {
    next.sequence == r.sequence + 1 && next.expectedPhase == Some(r.phase) && next.binding == r.binding
  }

  /** The answer that tells how a terminal row ended. */
  predicate TellsEnd(answer: Answer, row: OutcomeRecord) {
    if row.phase.Confirmed? then answer == Returned(row.receipt)
    else answer == Unresolved(row.reason, row.binding.actionId, row.taskId)
  }

  function After(v: Variant, w: World, e: Event): Pc
    requires OfAttempt(e) && e.a in w.attempts
  {
    if e.a in Step(v, w, e).attempts then Step(v, w, e).attempts[e.a].pc else Crashed
  }

  /** A send's answer: a Task that fits is journaled, as it was heard; anything else is an incident. */
  lemma SendReplyDecides(v: Variant, w: World, a: nat, at: string)
    requires Inv(w) && Receives(w, Receive(a, at), a) && w.attempts[a].pc.AwaitSend?
    ensures var r := w.attempts[a].pc.record; var heard := HeardTask(w, Receive(a, at), a);
      var pc := After(v, w, Receive(a, at));
      if heard.Some? then
        && pc.Putting? && pc.after == TaskKnown(heard.value) && pc.next.phase.Working?
        && pc.next.taskId == Some(heard.value.id) && Succeeds(pc.next, r)
      else PutsIncident(pc, r, "async-send-binding-inconsistent")
  {
    hide Inv;
    AwaitingFacts(w, a);
  }

  /** A poll's answer: a completed Task is settled, an ended one and one that does not fit are incidents, and a Task
      still under way is polled again. */
  lemma PollReplyDecides(v: Variant, w: World, a: nat, at: string)
    requires Inv(w) && Receives(w, Receive(a, at), a) && w.attempts[a].pc.AwaitGet?
    ensures var r := w.attempts[a].pc.record; var heard := HeardTask(w, Receive(a, at), a);
      var pc := After(v, w, Receive(a, at));
      if heard.None? then PutsIncident(pc, r, "async-task-binding-inconsistent")
      else if heard.value.state.TaskCompleted? then SettlesNow(pc, r, heard.value)
      else if heard.value.state.TaskEnded? then PutsIncident(pc, r, "async-task-terminal-without-artifact")
      else pc == Looping(r, false)
  {
    hide Inv, Finish, SettlesNow;
    AwaitingFacts(w, a);
    var heard := HeardTask(w, Receive(a, at), a);
    if heard.Some? && heard.value.state.TaskCompleted? { SettlingDecides(w.attempts[a].pc.record, heard.value, at); }
  }

  /** A completed Task settles its record: confirmed exactly when it carries one text. */
  ghost predicate SettlesNow(pc: Pc, r: OutcomeRecord, task: Snapshot) {
    && pc.Putting? && pc.after.Finishing? && Succeeds(pc.next, r) && Settles(pc.next, task)
    && (pc.next.phase.Confirmed? <==> IsSingleText(task.artifacts))
  }

  lemma SettlingDecides(r: OutcomeRecord, task: Snapshot, at: string)
    requires r.phase.Working? && r.taskId == Some(task.id) && Fits(task, r.binding, r.taskId)
    requires task.state.TaskCompleted?
    requires r.binding.effectKind.A2A? && r.binding.messageId.Some? && r.binding.pinnedIdentity.Some?
    ensures SettlesNow(Finish(r, task, at), r, task)
  {
    hide CompletedReceipt;
    ReceiptHoldsText(r, task, at);
  }

  /** A request without an answer: a send is journaled unknown, once, then resent by a participating receiver and given
      up for an opaque one; a poll is made again. */
  lemma TimeoutDecides(v: Variant, w: World, a: nat)
    requires Inv(w) && a in w.attempts && Waits(w.attempts[a].pc)
    ensures var t := w.attempts[a]; var r := t.pc.record; var pc := After(v, w, Timeout(a));
      if t.pc.AwaitGet? then pc == Looping(r, false)
      else if r.phase.Submitted? then
        && pc.Putting? && pc.next.phase.Unknown? && pc.next.taskId.None? && Succeeds(pc.next, r)
        && pc.after == (if t.input.mode.Opaque? then OpaqueUnknown else Resume)
      else if t.input.mode.Opaque? then PutsIncident(pc, r, "opaque-effect-unknown")
      else pc == Looping(r, false)
  {
    hide Inv;
    AwaitingFacts(w, a);
  }

  /** The journaled row is that of these arguments. */
  predicate SameWork(b: Binding, input: Input) {
    && b.runId == input.runId && b.definitionDigest == input.definitionDigest && b.receiver == input.mode
    && b.payloadSha256 == Some("sha256:" + input.parts) && b.pinnedIdentity == Some(input.identity)
    && b.effectKind.A2A? && b.revision.None? && b.sha256.None?
  }

  /** A begun row: other arguments are refused; a terminal row ends the attempt with its own end; an opaque action that
      someone else began, without a Task, is given up; and otherwise the attempt goes on from the row. */
  lemma BeginDecides(v: Variant, w: World, a: nat)
    requires Inv(w) && a in w.attempts && w.attempts[a].pc.Inserted?
    ensures var t := w.attempts[a]; var pc := After(v, w, ReadBack(a));
      && t.input.actionId in w.journal.rows
      && var row := w.journal.rows[t.input.actionId];
         if !SameWork(row.binding, t.input) then pc == Done(Raised)
         else if row.Terminal() then pc.Done? && TellsEnd(pc.answer, row)
         else if t.input.mode.Opaque? && row.taskId.None? && !t.pc.created then
           PutsIncident(pc, row, "opaque-effect-unknown")
         else pc == Looping(row, t.pc.created)
  {
    hide Chain, AsyncStep, RowOk, PacketOk, TaskOk, AcceptedOk, OneSender, OneMessage, JournaledTaskOk, Held;
    var t := w.attempts[a];
    assert AttemptOk(w.journal, w.net, w.agents, t);
    var row := w.journal.rows[t.input.actionId];
    if SameBinding(row.binding, t.input) { RowIsHeld(w.journal, t.input); }
  }

  /** A put that commits: the row is the record put, and the attempt returns its end, resends, gives up, settles the
      Task it has already heard completed, or polls it. */
  lemma CommitDecides(v: Variant, w: World, a: nat, at: string)
    requires Inv(w) && a in w.attempts && w.attempts[a].pc.Swapping?
    requires var t := w.attempts[a];
      t.input.actionId in w.journal.rows && w.journal.rows[t.input.actionId] == t.pc.prior
    ensures var t := w.attempts[a]; var next := t.pc.next; var pc := After(v, w, PutUpdate(a, at));
      var j := Step(v, w, PutUpdate(a, at)).journal;
      && t.input.actionId in j.rows && j.rows[t.input.actionId] == next
      && match t.pc.after
         case Finishing => pc.Done? && TellsEnd(pc.answer, next)
         case Resume => pc == Looping(next, false)
         case OpaqueUnknown => PutsIncident(pc, next, "opaque-effect-unknown")
         case TaskKnown(task) =>
           if !task.state.TaskCompleted? then pc == Polling(next)
           else Fits(task, next.binding, next.taskId) ==> SettlesNow(pc, next, task)
  {
    hide Inv, Finish, PutOk, Extends, Chain, SettlesNow, Fits;
    PutsItsOwn(w, a);
    PutsAreOwn(w, a);
    var t := w.attempts[a];
    if t.pc.after.TaskKnown? && t.pc.after.task.state.TaskCompleted?
      && Fits(t.pc.after.task, t.pc.next.binding, t.pc.next.taskId)
    {
      SettlingDecides(t.pc.next, t.pc.after.task, at);
    }
  }

  /** A put that is stale: the code as written blames a Task id it could not journal; every other put, and every put of
      the code as intended, leads to a reread, which tells the row's end or stays pending. */
  lemma StaleDecides(v: Variant, w: World, a: nat, at: string)
    requires Inv(w) && a in w.attempts && Puts(w.attempts[a].pc)
    requires w.attempts[a].input.actionId in w.journal.rows
    requires var t := w.attempts[a]; var row := w.journal.rows[t.input.actionId];
      (t.pc.Putting? ==> !Admissible(row, t.pc.next)) && (t.pc.Swapping? ==> row != t.pc.prior)
    ensures var t := w.attempts[a]; var e := if t.pc.Putting? then PutSelect(a) else PutUpdate(a, at);
      var pc := After(v, w, e);
      && Step(v, w, e).journal == w.journal
      && if t.pc.after.TaskKnown? && v.AsWritten? then PutsIncident(pc, t.pc.next, "async-send-binding-inconsistent")
         else pc == Rereading
  {
    hide Inv, PutOk, Extends, Chain, Admissible;
    PutsItsOwn(w, a);
    OpenWhenKnown(w, a);
  }

  lemma OpenWhenKnown(w: World, a: nat)
    requires Inv(w) && a in w.attempts && Puts(w.attempts[a].pc)
    ensures w.attempts[a].pc.after.TaskKnown? ==> !w.attempts[a].pc.next.Terminal()
  {
    hide Inv, Extends, Chain;
    PutsItsOwn(w, a);
  }

  lemma RereadDecides(v: Variant, w: World, a: nat)
    requires Inv(w) && a in w.attempts && w.attempts[a].pc.Rereading?
    ensures var t := w.attempts[a]; var pc := After(v, w, Reread(a));
      && t.input.actionId in w.journal.rows && pc.Done?
      && if w.journal.rows[t.input.actionId].Terminal() then TellsEnd(pc.answer, w.journal.rows[t.input.actionId])
         else pc.answer.Pending?
  {
    hide Chain, AsyncStep, RowOk, PacketOk, TaskOk, AcceptedOk, OneSender, OneMessage, JournaledTaskOk;
    assert AttemptOk(w.journal, w.net, w.agents, w.attempts[a]);
  }

  /** A verified pin: an action without a Task sends its journaled Message, one with a Task polls it. */
  lemma VerifiedDecides(v: Variant, w: World, a: nat)
    requires Inv(w) && a in w.attempts && w.attempts[a].pc.Looping? && Honest(w.agents, w.attempts[a].input)
    ensures var t := w.attempts[a]; var r := t.pc.record; var w' := Step(v, w, Verified(a));
      var pc := After(v, w, Verified(a));
      if r.taskId.Some? then pc == Polling(r) && w'.net == w.net
      else
        && r.binding.messageId.Some? && r.binding.contextId.Some?
        && pc == AwaitSend(r, t.pc.created, w.net.next) && w.net.next in w'.net.inflight
        && w'.net.inflight[w.net.next] == SendMessage(t.input.actionId, t.input.identity, r.binding.messageId.value,
                                                      r.binding.contextId.value, t.input.parts)
  {
    hide Chain, AsyncStep, RowOk, PacketOk, TaskOk, AcceptedOk, OneSender, OneMessage, JournaledTaskOk;
    assert AttemptOk(w.journal, w.net, w.agents, w.attempts[a]);
    HeldIsReady(w.journal, w.agents, w.attempts[a].input, w.attempts[a].pc.record);
  }
}
