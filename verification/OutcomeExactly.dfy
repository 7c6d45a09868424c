/** The transitions of an outcome record, each said over the record and its arguments:
    prototype/temporal-factory/src/a2a_outcome.py. */
module OutcomeExactly {
  import opened Prelude
  import opened Outcome

  /** The receipt is for this binding: of a release, its revision, digest and Message too, with a Task, a receipt and a
      length of its own; of any other action, with a Task. */
  predicate IsFor(receipt: Receipt, b: Binding) {
    && receipt.runId == Str(b.runId) && receipt.definitionDigest == Str(b.definitionDigest)
    && HasText(receipt.taskId)
    && (b.effectKind.A2A? ==> receipt.actionId == Str(b.actionId))
    && (b.effectKind.Release? ==>
          && receipt.releaseId == Str(b.actionId) && Same(receipt.revision, b.revision)
          && Same(receipt.sha256, b.sha256) && Same(receipt.messageId, b.messageId)
          && HasText(receipt.receiptId) && receipt.byteLength.Int? && receipt.byteLength.n >= 0)
  }

  predicate HasText(v: Value) { v.Str? && |v.s| > 0 }

  predicate Same(v: Value, o: Option<string>) { (o.None? && v.Null?) || (o.Some? && v == Str(o.value)) }

  /** `next` is the next version of r: one step later, from its phase, with its binding. */
  predicate Next(r: OutcomeRecord, next: OutcomeRecord) {
    next.binding == r.binding && next.sequence == r.sequence + 1 && next.expectedPhase == Some(r.phase)
  }

  predicate IncidentOf(r: OutcomeRecord, next: OutcomeRecord, reason: string) {
    && Next(r, next) && next.phase.Incident? && next.reason == Some(reason)
    && next.taskId == r.taskId && next.receipt == r.receipt
  }

  predicate ConfirmedBy(r: OutcomeRecord, next: OutcomeRecord, receipt: Receipt) {
    Next(r, next) && next.phase.Confirmed? && next.receipt == Some(receipt) && next.taskId == r.taskId
  }

  /** A record is begun exactly for a complete binding: an action, a run and a definition, at least one lookup, and, for
      a release only, a revision and a digest. */
  lemma BeginsExactly(b: Binding)
    ensures NewRecord(b).Success? <==>
      && b.actionId != "" && b.runId != "" && b.definitionDigest != "" && b.lookupLimit >= 1
      && (if b.effectKind.Release? then
            b.revision.Some? && b.revision.value != "" && b.sha256.Some? && b.sha256.value != ""
          else b.revision.None? && b.sha256.None?)
    ensures NewRecord(b).Success? ==>
      var r := NewRecord(b).value;
      r.binding == b && r.phase.Submitted? && r.sequence == 0 && r.expectedPhase.None? && r.lookupCount == 0
      && r.receipt.None? && r.reason.None? && r.taskId.None?
  {
  }

  /** A Task starts from any open record. A Task id that is missing, or not the one journaled, is an incident. */
  lemma StartsExactly(r: OutcomeRecord, taskId: Value)
    ensures TaskStarted(r, taskId).Success? <==> !r.phase.Confirmed? && !r.phase.Incident?
    ensures TaskStarted(r, taskId).Success? ==>
      var next := TaskStarted(r, taskId).value;
      if HasText(taskId) && (r.taskId.None? || r.taskId.value == "" || r.taskId.value == taskId.s) then
        Next(r, next) && next.phase.Working? && next.taskId == Some(taskId.s) && next.reason.None?
        && next.receipt == r.receipt && next.lookupCount == r.lookupCount
      else IncidentOf(r, next, "task-id-inconsistent")
  {
  }

  /** A Task finishes from a working record only, and confirms exactly with a receipt for its binding and its Task. */
  lemma FinishesExactly(r: OutcomeRecord, receipt: Receipt)
    ensures TaskFinished(r, receipt).Success? <==> r.phase.Working?
    ensures TaskFinished(r, receipt).Success? ==>
      var next := TaskFinished(r, receipt).value;
      if IsFor(receipt, r.binding) && Same(receipt.taskId, r.taskId) then
        ConfirmedBy(r, next, receipt) && next.reason.None? && next.lookupCount == r.lookupCount
      else IncidentOf(r, next, "reply-binding-inconsistent")
  {
  }

  /** A send completes, or turns unknown, from a submitted record only. */
  lemma SendsExactly(r: OutcomeRecord, receipt: Receipt)
    ensures SendCompleted(r, receipt).Success? <==> r.phase.Submitted?
    ensures SendAmbiguous(r).Success? <==> r.phase.Submitted?
    ensures SendCompleted(r, receipt).Success? ==>
      var next := SendCompleted(r, receipt).value;
      if IsFor(receipt, r.binding) then
        ConfirmedBy(r, next, receipt) && next.reason == r.reason && next.lookupCount == r.lookupCount
      else IncidentOf(r, next, "reply-binding-inconsistent")
    ensures SendAmbiguous(r).Success? ==>
      var next := SendAmbiguous(r).value;
      && Next(r, next) && next.phase.Unknown? && next.taskId == r.taskId && next.receipt == r.receipt
      && next.reason == Some("submission-outcome-unknown")
  {
  }

  /** A lookup answers an unknown record only. An opaque receiver cannot be looked up; a receipt found confirms exactly
      if it is for the binding; and finding none uses up one of the lookups, the last of which is an incident. */
  lemma LooksUpExactly(r: OutcomeRecord, found: Option<Receipt>, available: bool)
    ensures LookupResult(r, found, available).Success? <==> r.phase.Unknown?
    ensures LookupResult(r, found, available).Success? ==>
      var next := LookupResult(r, found, available).value;
      if r.binding.receiver.Opaque? then
        IncidentOf(r, next, "opaque-effect-unknown") && next.lookupCount == r.lookupCount
      else
        && next.lookupCount == r.lookupCount + 1
        && if found.Some? then
             if IsFor(found.value, r.binding) then ConfirmedBy(r, next, found.value) && next.reason.None?
             else IncidentOf(r, next, "lookup-binding-inconsistent")
           else if r.lookupCount + 1 >= r.binding.lookupLimit then
             IncidentOf(r, next, if available then "lookup-exhausted" else "lookup-unavailable")
           else
             && Next(r, next) && next.phase.Unknown? && next.taskId == r.taskId
             && next.reason == Some(if available then "lookup-empty" else "lookup-unavailable")
  {
  }

  /** An incident ends any open record, with the reason given. */
  lemma FailsExactly(r: OutcomeRecord, reason: string)
    ensures TaskIncident(r, reason).Success? <==> !r.phase.Confirmed? && !r.phase.Incident?
    ensures TaskIncident(r, reason).Success? ==> IncidentOf(r, TaskIncident(r, reason).value, reason)
  {
  }
}
