/** Classifying a closed failed child: prototype/temporal-factory/src/failure_projection.py. */
module FailureProjection {
  import opened Prelude
  import opened Outcome

  datatype IncidentClass =
    | BindingConflict | ReleaseWithoutAcceptance | BeforeAcceptance
    | AfterRelease | ReleaseUnaccounted | ReleaseIncident | ReleaseOutcomeUnknown

  datatype Reconciliation = ManualIncident | NoReconciliation | PreserveReceipt | InvestigateJournal | LookupByActionId

  datatype Decision = Decision(
    preserveAcceptance: bool, preserveReceipt: bool, receipt: Option<Receipt>,
    incident: IncidentClass, reconciliation: Reconciliation)

  /** A release outcome as the classifier sees it: `may_submit` is read off the object. */
  datatype Seen = Seen(record: OutcomeRecord, maySubmit: bool)

  /** `OutcomeRecord.may_submit` is the constant False. */
  function SeenRecord(r: OutcomeRecord): Seen { Seen(r, false) }

  function DecideClosedFailedChild(acceptance: Option<string>, releaseReceipt: Option<Receipt>,
      outcome: Option<Seen>, actionId: string, runId: string, definitionDigest: string): Result<Decision>
  {
    var base := Decision(acceptance.Some?, releaseReceipt.Some?, releaseReceipt, BeforeAcceptance, NoReconciliation);
    if outcome.Some? && outcome.value.maySubmit then
      Failure("release outcome does not prohibit resubmission")
    else if outcome.Some? && !BoundTo(outcome.value.record, actionId, runId, definitionDigest) then
      Success(base.(incident := BindingConflict, reconciliation := ManualIncident))
    else if acceptance.None? then
      if releaseReceipt.Some? || outcome.Some? then
        Success(base.(incident := ReleaseWithoutAcceptance, reconciliation := ManualIncident))
      else
        Success(base)
    else if releaseReceipt.Some? then
      Success(base.(incident := AfterRelease, reconciliation := PreserveReceipt))
    else if outcome.None? then
      Success(base.(incident := ReleaseUnaccounted, reconciliation := InvestigateJournal))
    else
      var r := outcome.value.record;
      if r.phase.Confirmed? then
        if r.receipt.Some? then
          Success(base.(preserveReceipt := true, receipt := r.receipt,
                        incident := AfterRelease, reconciliation := PreserveReceipt))
        else
          Success(base.(incident := ReleaseIncident, reconciliation := ManualIncident))
      else if (r.phase.Submitted? || r.phase.Unknown?) && r.binding.receiver.Participating? then
        Success(base.(incident := ReleaseOutcomeUnknown, reconciliation := LookupByActionId))
      else
        Success(base.(incident := ReleaseIncident, reconciliation := ManualIncident))
  }

  predicate BoundTo(r: OutcomeRecord, actionId: string, runId: string, definitionDigest: string) {
    r.binding.actionId == actionId && r.binding.runId == runId && r.binding.definitionDigest == definitionDigest
  }

  /** On a journal record the decision never raises; an accepted, confirmed release always ends with its
      own matching receipt preserved, so the confirmed-without-receipt branch is dead: with acceptance, a
      matching record and no receipt in hand, the plain release incident means exactly an Incident row, a Working row,
      or an opaque row still open. A lookup is asked for exactly when a later lookup could still resolve the row. */
  lemma DecisionOverReachableRecords(r: OutcomeRecord, acceptance: Option<string>, releaseReceipt: Option<Receipt>,
      actionId: string, runId: string, definitionDigest: string)
    requires Reachable(r)
    ensures var d := DecideClosedFailedChild(acceptance, releaseReceipt, Some(SeenRecord(r)), actionId, runId,
      definitionDigest);
      && d.Success?
      && (BoundTo(r, actionId, runId, definitionDigest) && acceptance.Some? && releaseReceipt.None? ==>
            && (d.value.incident.AfterRelease? <==> r.phase.Confirmed?)
            && (r.phase.Confirmed? ==> d.value.receipt.Some? && Matching(r.binding, d.value.receipt.value))
            && (d.value.incident.ReleaseIncident? <==>
                  r.phase.Incident? || r.phase.Working? || (r.binding.receiver.Opaque? && !r.Terminal()))
            && (d.value.reconciliation.LookupByActionId? <==>
                  exists receipt ::
                    r.binding.receiver.Participating? && (SendCompletes(r, receipt) || LookupCompletes(r, receipt))))
  {
    ReachableRecords(r);
    if r.binding.receiver.Participating? && r.phase.Submitted? { assert SendCompletes(r, MatchingReceipt(r.binding)); }
    if r.binding.receiver.Participating? && r.phase.Unknown? { assert LookupCompletes(r, MatchingReceipt(r.binding)); }
  }

  predicate SendCompletes(r: OutcomeRecord, receipt: Receipt) {
    var next := SendCompleted(r, receipt); next.Success? && next.value.phase.Confirmed?
  }

  predicate LookupCompletes(r: OutcomeRecord, receipt: Receipt) {
    var next := LookupResult(r, Some(receipt), true); next.Success? && next.value.phase.Confirmed?
  }

  /** Some receipt that matches a binding: a row not yet terminal can always still be confirmed. */
  function MatchingReceipt(b: Binding): (receipt: Receipt)
    ensures Matching(b, receipt)
  {
    Receipt(Str(b.actionId), Str(b.runId), Str(b.definitionDigest), Str("task"), Str(b.actionId),
            AsValue(b.revision), AsValue(b.sha256), AsValue(b.messageId), Str("receipt"), Int(0), [])
  }

  /** The decision for every input. It raises exactly when the outcome would allow a resubmission. The class is the
      first that applies: a foreign outcome; anything recorded of a release without an acceptance; nothing yet; a
      receipt, in hand or journaled; no outcome at all; an open outcome a participating receiver can still tell; and
      otherwise an incident. Each class has its reconciliation, and no acceptance or receipt is ever dropped. */
  lemma DecisionsExactly(acceptance: Option<string>, releaseReceipt: Option<Receipt>, outcome: Option<Seen>,
      actionId: string, runId: string, definitionDigest: string)
    ensures var d := DecideClosedFailedChild(acceptance, releaseReceipt, outcome, actionId, runId, definitionDigest);
      var foreign := outcome.Some? && (outcome.value.record.binding.actionId != actionId
        || outcome.value.record.binding.runId != runId
        || outcome.value.record.binding.definitionDigest != definitionDigest);
      var journaled := if outcome.Some? && outcome.value.record.phase.Confirmed? then outcome.value.record.receipt
        else None;
      && (d.Failure? <==> outcome.Some? && outcome.value.maySubmit)
      && (d.Success? ==>
            && ClassFits(d.value, foreign, acceptance.Some?, releaseReceipt.Some?, journaled.Some?, outcome)
            && d.value.preserveAcceptance == acceptance.Some?
            && d.value.preserveReceipt == d.value.receipt.Some?
            && (releaseReceipt.Some? ==> d.value.receipt == releaseReceipt)
            && (releaseReceipt.None? && d.value.receipt.Some? ==> d.value.receipt == journaled)
            && (d.value.incident.AfterRelease? ==> d.value.receipt.Some?))
  {
  }

  predicate ClassFits(d: Decision, foreign: bool, accepted: bool, received: bool, journaled: bool,
      outcome: Option<Seen>) {
    && (d.incident.BindingConflict? <==> foreign)
    && (d.incident.ReleaseWithoutAcceptance? <==> !foreign && !accepted && (received || outcome.Some?))
    && (d.incident.BeforeAcceptance? <==> !foreign && !accepted && !received && outcome.None?)
    && (d.incident.AfterRelease? <==> !foreign && accepted && (received || journaled))
    && (d.incident.ReleaseUnaccounted? <==> !foreign && accepted && !received && outcome.None?)
    && (d.incident.ReleaseOutcomeUnknown? <==>
          !foreign && accepted && !received && outcome.Some? && outcome.value.record.binding.receiver.Participating?
          && (outcome.value.record.phase.Submitted? || outcome.value.record.phase.Unknown?))
    && d.reconciliation == match d.incident
       case BindingConflict => ManualIncident
       case ReleaseWithoutAcceptance => ManualIncident
       case BeforeAcceptance => NoReconciliation
       case AfterRelease => PreserveReceipt
       case ReleaseUnaccounted => InvestigateJournal
       case ReleaseOutcomeUnknown => LookupByActionId
       case ReleaseIncident => ManualIncident
  }
}
