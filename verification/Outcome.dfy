/** Outcome records and their transitions: prototype/temporal-factory/src/a2a_outcome.py.
    A transition returns Failure where the source raises ValueError. */
module Outcome {
  import opened Prelude

  datatype Receiver = Participating | Opaque
  datatype Effect = A2A | Release
  datatype Phase = Submitted | Working | Confirmed | Unknown | Incident

  /** What `receipt.get(key)` yields; an absent key reads as Null. */
  datatype Value = Null | Str(s: string) | Int(n: int) | Other

  datatype Receipt = Receipt(
    actionId: Value, runId: Value, definitionDigest: Value, taskId: Value,
    releaseId: Value, revision: Value, sha256: Value, messageId: Value,
    receiptId: Value, byteLength: Value, body: seq<string>)

  /** The fields fixed when an action begins. */
  datatype Binding = Binding(
    actionId: string, runId: string, definitionDigest: string, receiver: Receiver,
    effectKind: Effect, revision: Option<string>, sha256: Option<string>, lookupLimit: int,
    payloadSha256: Option<string>, pinnedIdentity: Option<string>,
    messageId: Option<string>, contextId: Option<string>)

  /** One journal row's value. */
  datatype OutcomeRecord = OutcomeRecord(
    binding: Binding, phase: Phase, lookupCount: int, receipt: Option<Receipt>,
    reason: Option<string>, taskId: Option<string>, sequence: int, expectedPhase: Option<Phase>)
  {
    predicate Terminal() { phase.Confirmed? || phase.Incident? }
  }

  function AsValue(o: Option<string>): Value {
    match o case None => Null case Some(s) => Str(s)
  }

  predicate NonEmptyText(v: Value) { v.Str? && v.s != "" }

  /** `submitted`: the record of a fresh action. */
  function NewRecord(b: Binding): Result<OutcomeRecord> {
    if b.actionId == "" || b.runId == "" || b.definitionDigest == "" then
      Failure("missing A2A action binding")
    else if b.lookupLimit < 1 then
      Failure("lookup limit must be positive")
    else if b.effectKind.Release? && !(NonEmptyText(AsValue(b.revision)) && NonEmptyText(AsValue(b.sha256))) then
      Failure("release requires exact revision and digest")
    else if b.effectKind.A2A? && (b.revision.Some? || b.sha256.Some?) then
      Failure("A2A action cannot carry release binding")
    else
      Success(OutcomeRecord(b, Submitted, 0, None, None, None, 0, None))
  }

  /** `_advance`: every transition counts one step and names the phase it left. */
  function Advance(r: OutcomeRecord): OutcomeRecord {
    r.(sequence := r.sequence + 1, expectedPhase := Some(r.phase))
  }

  function AsIncident(r: OutcomeRecord, reason: string): OutcomeRecord {
    Advance(r).(phase := Incident, reason := Some(reason))
  }

  predicate Matching(b: Binding, receipt: Receipt) {
    && receipt.runId == Str(b.runId)
    && receipt.definitionDigest == Str(b.definitionDigest)
    && if b.effectKind.Release? then
         && receipt.releaseId == Str(b.actionId)
         && receipt.revision == AsValue(b.revision)
         && receipt.sha256 == AsValue(b.sha256)
         && receipt.messageId == AsValue(b.messageId)
         && NonEmptyText(receipt.taskId)
         && NonEmptyText(receipt.receiptId)
         && receipt.byteLength.Int? && receipt.byteLength.n >= 0
       else
         receipt.actionId == Str(b.actionId) && NonEmptyText(receipt.taskId)
  }

  function TaskStarted(r: OutcomeRecord, taskId: Value): Result<OutcomeRecord> {
    if r.Terminal() then
      Failure("Task cannot start from terminal outcome")
    else if !NonEmptyText(taskId)
         || (r.taskId.Some? && r.taskId.value != "" && r.taskId.value != taskId.s) then
      Success(AsIncident(r, "task-id-inconsistent"))
    else
      Success(Advance(r).(phase := Working, taskId := Some(taskId.s), reason := None))
  }

  function TaskFinished(r: OutcomeRecord, receipt: Receipt): Result<OutcomeRecord> {
    if !r.phase.Working? then
      Failure("Task completion requires journaled Task id")
    else if !Matching(r.binding, receipt) || receipt.taskId != AsValue(r.taskId) then
      Success(AsIncident(r, "reply-binding-inconsistent"))
    else
      Success(Advance(r).(phase := Confirmed, receipt := Some(receipt), reason := None))
  }

  function TaskIncident(r: OutcomeRecord, reason: string): Result<OutcomeRecord> {
    if r.Terminal() then Failure("terminal outcome cannot change")
    else Success(AsIncident(r, reason))
  }

  function SendCompleted(r: OutcomeRecord, receipt: Receipt): Result<OutcomeRecord> {
    if !r.phase.Submitted? then
      Failure("submission already resolved or uncertain")
    else if !Matching(r.binding, receipt) then
      Success(AsIncident(r, "reply-binding-inconsistent"))
    else
      Success(Advance(r).(phase := Confirmed, receipt := Some(receipt)))
  }

  function SendAmbiguous(r: OutcomeRecord): Result<OutcomeRecord> {
    if !r.phase.Submitted? then Failure("submission already resolved or uncertain")
    else Success(Advance(r).(phase := Unknown, reason := Some("submission-outcome-unknown")))
  }

  function LookupResult(r: OutcomeRecord, receipt: Option<Receipt>, available: bool): Result<OutcomeRecord> {
    if !r.phase.Unknown? then
      Failure("lookup requires an unknown outcome")
    else if r.binding.receiver.Opaque? then
      Success(AsIncident(r, "opaque-effect-unknown"))
    else
      var counted := r.(lookupCount := r.lookupCount + 1);
      match receipt
      case Some(found) =>
        if !Matching(r.binding, found) then
          Success(AsIncident(r, "lookup-binding-inconsistent").(lookupCount := counted.lookupCount))
        else Success(Advance(counted).(phase := Confirmed, receipt := Some(found), reason := None))
      case None =>
        if counted.lookupCount >= r.binding.lookupLimit then
          Success(AsIncident(counted, if available then "lookup-exhausted" else "lookup-unavailable"))
        else
          Success(Advance(counted).(reason := Some(if available then "lookup-empty" else "lookup-unavailable")))
  }

  /** One call of any transition function. */
  datatype Transition =
    | Started(taskId: Value)
    | Finished(receipt: Receipt)
    | Failed(reason: string)
    | Completed(receipt: Receipt)
    | Ambiguous
    | Lookup(found: Option<Receipt>, available: bool)

  function Apply(r: OutcomeRecord, t: Transition): Result<OutcomeRecord> {
    match t
    case Started(taskId) => TaskStarted(r, taskId)
    case Finished(receipt) => TaskFinished(r, receipt)
    case Failed(reason) => TaskIncident(r, reason)
    case Completed(receipt) => SendCompleted(r, receipt)
    case Ambiguous => SendAmbiguous(r)
    case Lookup(found, available) => LookupResult(r, found, available)
  }

  /** Any sequence of calls; a call that raises leaves the record as it was. */
  function Play(r: OutcomeRecord, ts: seq<Transition>): OutcomeRecord
    decreases |ts|
  {
    if ts == [] then r
    else Play(match Apply(r, ts[0]) case Success(next) => next case Failure(_) => r, ts[1..])
  }

  /** How many of the calls were lookups that took effect. */
  function LookupsUsed(r: OutcomeRecord, ts: seq<Transition>): nat
    decreases |ts|
  {
    if ts == [] then 0
    else match Apply(r, ts[0])
      case Success(next) => (if ts[0].Lookup? then 1 else 0) + LookupsUsed(next, ts[1..])
      case Failure(_) => LookupsUsed(r, ts[1..])
  }

  /** What each phase says about the rest of the record. */
  predicate Sound(r: OutcomeRecord) {
    && 0 <= r.lookupCount <= r.binding.lookupLimit && 1 <= r.binding.lookupLimit
    && (r.phase.Confirmed? ==> r.receipt.Some? && Matching(r.binding, r.receipt.value))
    && (r.phase.Working? ==> r.taskId.Some? && r.taskId.value != "")
    && (r.phase.Unknown? ==> r.taskId.None? && r.lookupCount < r.binding.lookupLimit)
    && (r.phase.Submitted? ==> r.taskId.None? && r.lookupCount == 0)
    && (r.phase.Incident? ==> r.reason.Some?)
    && (!r.phase.Confirmed? ==> r.receipt.None?)
  }

  /** A transition counts exactly one step, keeps the binding, never replaces a Task id
      and never leaves a terminal phase. */
  lemma TransitionAdvances(r: OutcomeRecord, t: Transition, next: OutcomeRecord)
    requires Apply(r, t) == Success(next) && (r.phase.Submitted? || r.phase.Unknown? ==> r.taskId.None?)
    requires r.phase.Working? ==> r.taskId.Some? && r.taskId.value != ""
    ensures !r.Terminal() && next.binding == r.binding
    ensures next.sequence == r.sequence + 1 && next.expectedPhase == Some(r.phase)
    ensures r.taskId.Some? ==> next.taskId == r.taskId
  {
  }

  /** A transition keeps the record sound. */
  lemma TransitionKeepsSound(r: OutcomeRecord, t: Transition, next: OutcomeRecord)
    requires Sound(r) && Apply(r, t) == Success(next)
    ensures Sound(next)
  {
  }

  /** Every record reachable from a fresh one by any calls is sound and keeps its binding;
      a terminal record is a fixed point. */
  lemma {:induction false} ReachableIsSound(r: OutcomeRecord, ts: seq<Transition>)
    requires Sound(r)
    ensures Sound(Play(r, ts)) && Play(r, ts).binding == r.binding
    ensures r.Terminal() ==> Play(r, ts) == r
    ensures LookupsUsed(r, ts) <= r.binding.lookupLimit - r.lookupCount
    ensures r.Terminal() ==> LookupsUsed(r, ts) == 0
    ensures r.taskId.Some? ==> Play(r, ts).taskId == r.taskId
    decreases |ts|
  {
    if ts != [] {
      match Apply(r, ts[0]) {
        case Success(next) =>
          TransitionAdvances(r, ts[0], next);
          TransitionKeepsSound(r, ts[0], next);
          ReachableIsSound(next, ts[1..]);
        case Failure(_) =>
          ReachableIsSound(r, ts[1..]);
      }
    }
  }

  /** The records the source can hold: a fresh record after any calls. */
  ghost predicate Reachable(r: OutcomeRecord) {
    exists first: OutcomeRecord, ts: seq<Transition> :: IsFresh(first) && Play(first, ts) == r
  }

  predicate IsFresh(r: OutcomeRecord) { NewRecord(r.binding) == Success(r) }

  lemma ReachableRecords(r: OutcomeRecord)
    requires Reachable(r)
    ensures Sound(r)
  {
    var first: OutcomeRecord, ts: seq<Transition> :| IsFresh(first) && Play(first, ts) == r;
    ReachableIsSound(first, ts);
  }
}
