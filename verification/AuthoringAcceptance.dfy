/** The independent checker of an authoring record: `authoring_acceptance` of
    prototype/temporal-factory/scenarios/live_authoring.py, and its agreement with the session. */
module AuthoringAcceptance {
  import opened Prelude
  import opened Authoring

  // The record, as JSON would give it. None is a field that is absent or of another type.

  datatype ErrorRow = ErrorRow(
    code: Option<string>, message: Option<string>, path: Option<seq<string>>, missing: Option<seq<Option<string>>>)

  datatype RoundRow = RoundRow(digest: Option<string>, valid: Option<bool>, errors: Option<seq<ErrorRow>>)

  datatype ResultRow = ResultRow(
    ok: Option<bool>, digest: Option<string>, errors: Option<seq<ErrorRow>>, packageDigest: Option<string>)

  datatype CallRow = NotADict | CallRow(tool: Option<string>, digest: Option<string>, result: Option<ResultRow>)

  datatype Template = Leaf | Node(fields: map<string, Template>)

  datatype OutcomeRow = OutcomeRow(
    status: Option<string>, abort: bool, error: bool, rounds: seq<RoundRow>, calls: seq<CallRow>,
    packageDigest: Option<string>, template: Template)

  datatype ApprovalRow = ApprovalRow(status: Option<string>, policy: Option<string>, packageDigest: Option<string>)

  datatype Record = Record(
    exitCode: Option<int>, status: Option<string>, outcome: OutcomeRow, modelCalls: Option<int>,
    maxRounds: Option<int>, maxModelCalls: Option<int>, maxToolCalls: Option<int>,
    approval: ApprovalRow, publishedDigest: Option<string>)

  datatype Facts = Facts(firstPassValid: bool, roundCount: nat, invalidRounds: seq<RoundRow>,
    submittedDigest: Option<string>)

  /** The reason the checker gives, by its name there. */
  datatype Reason =
    | UnsupportedProvider | AuthoringNotPublished | AuthoringBudgetExceededOrMissing | InvalidRoundRecord
    | InvalidToolCallRecord | ValidateDraftMustPrecedeSubmitDraft | UnstructuredValidationResult
    | ToolResultMissingRound | SubmittedDigestNotValid | ApprovalOrPublicationMismatch | SyntheticRepairLoopMissing
    | SyntheticInvalidDraftNotValidated | SyntheticCorrectionNotDerivedFromErrors | Accepted

  // What the checker asks, clause by clause.

  predicate StructuredError(e: ErrorRow) { e.code.Some? && e.message.Some? }

  /** `structured`: typed, and with errors exactly when not ok. */
  predicate Structured(ok: Option<bool>, digest: Option<string>, errors: Option<seq<ErrorRow>>) {
    && ok.Some? && digest.Some? && errors.Some? && (forall e :: e in errors.value ==> StructuredError(e))
    && (ok.value <==> errors.value == [])
  }

  predicate StructuredRound(r: RoundRow) { Structured(r.valid, r.digest, r.errors) }

  predicate StructuredCall(c: CallRow) {
    c.CallRow? && c.result.Some? && Structured(c.result.value.ok, c.result.value.digest, c.result.value.errors)
    && c.digest == c.result.value.digest
  }

  predicate UsesTool(c: CallRow, tool: string) { c.CallRow? && c.tool == Some(tool) }

  predicate Evaluates(c: CallRow) { UsesTool(c, "submit_draft") || UsesTool(c, "validate_draft") }

  predicate InRound(c: CallRow, rounds: seq<RoundRow>)
    requires c.CallRow? && c.result.Some?
  {
    exists i :: 0 <= i < |rounds| && rounds[i].digest == c.digest && rounds[i].valid == c.result.value.ok
  }

  predicate Within(count: Option<int>, cap: Option<int>) {
    count.Some? && 1 <= count.value && cap.Some? && count.value <= cap.value
  }

  predicate Published(r: Record) {
    && r.exitCode == Some(0) && r.status == Some("published") && r.outcome.status == Some("approved")
    && !r.outcome.abort && !r.outcome.error
  }

  predicate WithinBudget(r: Record) {
    && Within(Some(|r.outcome.rounds|), r.maxRounds) && Within(r.modelCalls, r.maxModelCalls)
    && Within(Some(|r.outcome.calls|), r.maxToolCalls)
  }

  /** The first call with a tool, if any, and the last. */
  function FirstUse(calls: seq<CallRow>, tool: string): (first: Option<nat>)
    ensures first.Some? ==> first.value < |calls| && UsesTool(calls[first.value], tool)
    ensures first.Some? ==> forall k :: 0 <= k < first.value ==> !UsesTool(calls[k], tool)
    ensures first.None? ==> forall k :: 0 <= k < |calls| ==> !UsesTool(calls[k], tool)
  {
    if calls == [] then None
    else
      var n := |calls| - 1;
      match FirstUse(calls[..n], tool)
      case Some(k) => Some(k)
      case None => if UsesTool(calls[n], tool) then Some(n) else None
  }

  function LastUse(calls: seq<CallRow>, tool: string): (last: Option<nat>)
    ensures last.Some? ==> last.value < |calls| && UsesTool(calls[last.value], tool)
    ensures last.Some? ==> forall k :: last.value < k < |calls| ==> !UsesTool(calls[k], tool)
    ensures last.None? ==> forall k :: 0 <= k < |calls| ==> !UsesTool(calls[k], tool)
  {
    if calls == [] then None
    else
      var n := |calls| - 1;
      if UsesTool(calls[n], tool) then Some(n) else LastUse(calls[..n], tool)
  }

  predicate ValidatedFirst(calls: seq<CallRow>) {
    var v, s := FirstUse(calls, "validate_draft"), FirstUse(calls, "submit_draft");
    v.Some? && s.Some? && v.value < s.value
  }

  predicate CallsMatchRounds(o: OutcomeRow) {
    && (forall c :: c in o.calls && Evaluates(c) ==> StructuredCall(c))
    && (forall c :: c in o.calls && Evaluates(c) && StructuredCall(c) ==> InRound(c, o.rounds))
  }

  /** The last submission succeeded, of a draft some round found valid, and everyone pins its package. */
  predicate SubmissionPinned(r: Record) {
    var last := LastUse(r.outcome.calls, "submit_draft");
    && last.Some? && var c := r.outcome.calls[last.value];
    && c.CallRow? && c.result.Some? && c.result.value.ok == Some(true)
    && (exists i ::
          && 0 <= i < |r.outcome.rounds|
          && r.outcome.rounds[i].digest == c.digest && r.outcome.rounds[i].valid == Some(true))
    && r.outcome.packageDigest.Some? && c.result.value.packageDigest == r.outcome.packageDigest
    && r.approval.status == Some("approved") && r.approval.policy == Some("auto")
    && r.approval.packageDigest == r.outcome.packageDigest && r.publishedDigest == r.outcome.packageDigest
  }

  /** `_feedback_cases_present`: the cases are entries of the mapping the path leads to. */
  predicate CasesPresent(t: Template, path: seq<string>, cases: seq<Option<string>>)
    decreases |path|
  {
    if path == [] then t.Node? && forall c :: c in cases ==> c.Some? && c.value in t.fields
    else t.Node? && path[0] in t.fields && CasesPresent(t.fields[path[0]], path[1..], cases)
  }

  predicate FeedbackUsed(o: OutcomeRow, e: ErrorRow) {
    e.missing.Some? && e.missing.value != [] && e.path.Some? && CasesPresent(o.template, e.path.value, e.missing.value)
  }

  predicate FailedValidation(c: CallRow, digest: Option<string>) {
    UsesTool(c, "validate_draft") && c.digest == digest && c.result.Some? && c.result.value.ok == Some(false)
  }

  /** The extra demands on the synthetic provider's scripted repair. */
  predicate RepairLoop(o: OutcomeRow) {
    && o.rounds != [] && var first := o.rounds[0];
    && first.valid == Some(false) && first.errors.Some?
    && (exists i :: 1 <= i < |o.rounds| && o.rounds[i].valid == Some(true) && o.rounds[i].digest != first.digest)
    && (exists k :: 0 <= k < |o.calls| && FailedValidation(o.calls[k], first.digest))
    && (exists k :: 0 <= k < |first.errors.value| && FeedbackUsed(o, first.errors.value[k]))
  }

  predicate Acceptable(provider: string, r: Record) {
    && provider in {"synthetic-loopback", "codex-subscription"}
    && Published(r) && WithinBudget(r)
    && (forall row :: row in r.outcome.rounds ==> StructuredRound(row))
    && NotADict !in r.outcome.calls
    && ValidatedFirst(r.outcome.calls) && CallsMatchRounds(r.outcome) && SubmissionPinned(r)
    && (provider == "synthetic-loopback" ==> RepairLoop(r.outcome))
  }

  /** The loop of `_feedback_cases_present`. */
  method FeedbackCasesPresent(template: Template, path: seq<string>, cases: seq<Option<string>>) returns (present: bool)
    ensures present == CasesPresent(template, path, cases)
  {
    var value := template;
    for i := 0 to |path|
      invariant CasesPresent(template, path, cases) == CasesPresent(value, path[i..], cases)
    {
      if !value.Node? || path[i] !in value.fields { return false; }
      value := value.fields[path[i]];
    }
    present := value.Node? && forall c :: c in cases ==> c.Some? && c.value in value.fields;
  }

  method AnyFeedbackUsed(o: OutcomeRow, errors: seq<ErrorRow>) returns (used: bool)
    ensures used <==> exists k :: 0 <= k < |errors| && FeedbackUsed(o, errors[k])
  {
    for k := 0 to |errors|
      invariant forall j :: 0 <= j < k ==> !FeedbackUsed(o, errors[j])
    {
      if errors[k].missing.Some? && errors[k].missing.value != [] && errors[k].path.Some? {
        var present := FeedbackCasesPresent(o.template, errors[k].path.value, errors[k].missing.value);
        if present { return true; }
      }
    }
    used := false;
  }

  /** The part of `authoring_acceptance` for the synthetic provider. */
  method RepairMissing(o: OutcomeRow) returns (reason: Option<Reason>)
    requires o.rounds != [] && StructuredRound(o.rounds[0])
    ensures reason.None? <==> RepairLoop(o)
    ensures reason != Some(Accepted)
    ensures reason == Some(SyntheticRepairLoopMissing) <==>
      o.rounds[0].valid == Some(true) ||
      forall i :: 1 <= i < |o.rounds| ==> o.rounds[i].valid != Some(true) || o.rounds[i].digest == o.rounds[0].digest
    ensures reason == Some(SyntheticInvalidDraftNotValidated) ==>
      forall k :: 0 <= k < |o.calls| ==> !FailedValidation(o.calls[k], o.rounds[0].digest)
    ensures reason == Some(SyntheticCorrectionNotDerivedFromErrors) ==>
      forall k :: 0 <= k < |o.rounds[0].errors.value| ==> !FeedbackUsed(o, o.rounds[0].errors.value[k])
    ensures reason.Some? ==> reason.value in {SyntheticRepairLoopMissing, SyntheticInvalidDraftNotValidated,
      SyntheticCorrectionNotDerivedFromErrors}
  {
    hide FeedbackUsed;
    var first := o.rounds[0];
    if first.valid == Some(true)
      || !(exists i :: 1 <= i < |o.rounds| && o.rounds[i].valid == Some(true) && o.rounds[i].digest != first.digest)
    {
      return Some(SyntheticRepairLoopMissing);
    }
    if !(exists k :: 0 <= k < |o.calls| && FailedValidation(o.calls[k], first.digest)) {
      return Some(SyntheticInvalidDraftNotValidated);
    }
    var used := AnyFeedbackUsed(o, first.errors.value);
    reason := if used then None else Some(SyntheticCorrectionNotDerivedFromErrors);
  }

  /** The tests of the evaluating calls, and the digest last submitted once they have the right shape. */
  method CallFault(r: Record) returns (reason: Option<Reason>, submittedDigest: Option<string>)
    requires ValidatedFirst(r.outcome.calls)
    ensures reason.None? <==> CallsMatchRounds(r.outcome) && SubmissionPinned(r)
    ensures reason != Some(Accepted)
    ensures LastUse(r.outcome.calls, "submit_draft").Some?
    ensures reason.None? ==> submittedDigest == r.outcome.calls[LastUse(r.outcome.calls, "submit_draft").value].digest
    ensures reason.None? ==> submittedDigest.Some?
    ensures reason == Some(UnstructuredValidationResult) <==>
      exists c :: c in r.outcome.calls && Evaluates(c) && !StructuredCall(c)
    ensures reason == Some(ToolResultMissingRound) ==>
      exists c :: c in r.outcome.calls && Evaluates(c) && StructuredCall(c) && !InRound(c, r.outcome.rounds)
    ensures reason == Some(SubmittedDigestNotValid) || reason == Some(ApprovalOrPublicationMismatch) ==>
      CallsMatchRounds(r.outcome) && !SubmissionPinned(r)
    ensures reason.Some? ==> reason.value in {UnstructuredValidationResult, ToolResultMissingRound,
      SubmittedDigestNotValid, ApprovalOrPublicationMismatch}
  {
    hide Structured, ValidatedFirst;
    var o := r.outcome;
    SubmissionExists(o.calls);
    if !(forall c :: c in o.calls && Evaluates(c) ==> StructuredCall(c)) {
      return Some(UnstructuredValidationResult), None;
    }
    if !(forall c :: c in o.calls && Evaluates(c) && StructuredCall(c) ==> InRound(c, o.rounds)) {
      return Some(ToolResultMissingRound), None;
    }
    var submitted := o.calls[LastUse(o.calls, "submit_draft").value];
    submittedDigest := submitted.digest;
    assert submitted in o.calls && Evaluates(submitted) && StructuredCall(submitted);
    StructuredDigest(submitted);
    if submitted.result.value.ok != Some(true)
      || !(exists i :: 0 <= i < |o.rounds| && o.rounds[i].digest == submitted.digest && o.rounds[i].valid == Some(true))
    {
      return Some(SubmittedDigestNotValid), submittedDigest;
    }
    reason := if SubmissionPinned(r) then None else Some(ApprovalOrPublicationMismatch);
  }

  lemma StructuredDigest(c: CallRow)
    requires StructuredCall(c)
    ensures c.digest.Some?
  {
  }

  lemma SubmissionExists(calls: seq<CallRow>)
    requires ValidatedFirst(calls)
    ensures LastUse(calls, "submit_draft").Some?
  {
    assert UsesTool(calls[FirstUse(calls, "submit_draft").value], "submit_draft");
  }

  /** `authoring_acceptance`: its early returns, in their order. */
  method AuthoringAcceptance(provider: string, r: Record) returns (accepted: bool, reason: Reason, facts: Facts)
    ensures accepted <==> Acceptable(provider, r)
    ensures accepted <==> reason == Accepted
    ensures facts.roundCount == |r.outcome.rounds| && facts.invalidRounds == InvalidRounds(r.outcome.rounds)
    ensures facts.firstPassValid <==> r.outcome.rounds != [] && r.outcome.rounds[0].valid == Some(true)
    ensures reason == UnsupportedProvider <==> provider !in {"synthetic-loopback", "codex-subscription"}
    ensures reason == AuthoringNotPublished <==>
      provider in {"synthetic-loopback", "codex-subscription"} && !Published(r)
    ensures reason == AuthoringBudgetExceededOrMissing <==>
      provider in {"synthetic-loopback", "codex-subscription"} && Published(r) && !WithinBudget(r)
    ensures reason in {InvalidRoundRecord, InvalidToolCallRecord, ValidateDraftMustPrecedeSubmitDraft} ==>
      Published(r) && WithinBudget(r)
    ensures reason == InvalidRoundRecord ==> exists row :: row in r.outcome.rounds && !StructuredRound(row)
    ensures reason == InvalidToolCallRecord ==> NotADict in r.outcome.calls
    ensures reason == ValidateDraftMustPrecedeSubmitDraft ==> !ValidatedFirst(r.outcome.calls)
    ensures accepted ==>
      && facts.submittedDigest.Some? && LastUse(r.outcome.calls, "submit_draft").Some?
      && r.outcome.calls[LastUse(r.outcome.calls, "submit_draft").value].digest == facts.submittedDigest
  {
    hide InvalidRounds, Published, FeedbackUsed, RepairLoop, ValidatedFirst, CallsMatchRounds, SubmissionPinned,
      StructuredRound;
    var o := r.outcome;
    facts := Facts(o.rounds != [] && o.rounds[0].valid == Some(true), |o.rounds|, InvalidRounds(o.rounds), None);
    if provider !in {"synthetic-loopback", "codex-subscription"} { return false, UnsupportedProvider, facts; }
    if !Published(r) { return false, AuthoringNotPublished, facts; }
    if !WithinBudget(r) { return false, AuthoringBudgetExceededOrMissing, facts; }
    if !(forall row :: row in o.rounds ==> StructuredRound(row)) { return false, InvalidRoundRecord, facts; }
    if NotADict in o.calls { return false, InvalidToolCallRecord, facts; }
    if !ValidatedFirst(o.calls) { return false, ValidateDraftMustPrecedeSubmitDraft, facts; }
    var fault, digest := CallFault(r);
    facts := facts.(submittedDigest := digest);
    if fault.Some? { return false, fault.value, facts; }
    if provider == "synthetic-loopback" {
      assert StructuredRound(o.rounds[0]);
      var missing := RepairMissing(o);
      if missing.Some? { return false, missing.value, facts; }
    }
    return true, Accepted, facts;
  }

  function InvalidRounds(rounds: seq<RoundRow>): seq<RoundRow> {
    if rounds == [] then []
    else (if rounds[0].valid == Some(false) then [rounds[0]] else []) + InvalidRounds(rounds[1..])
  }

  // The record of a session.

  function ErrorsOf(v: Verdict): seq<ErrorRow> {
    match v
    case Valid(_) => []
    case Invalid(e) =>
      [ErrorRow(Some("validation_error"), Some(e.message),
                if e.missing.Some? then Some(e.missing.value.0) else None,
                if e.missing.Some? then Some(seq(|e.missing.value.1|,
                  k requires 0 <= k < |e.missing.value.1| => Some(e.missing.value.1[k])))
                else None)]
  }

  function RoundRowOf(r: Round): RoundRow {
    RoundRow(Some(r.digest), Some(r.verdict.Valid?), Some(ErrorsOf(r.verdict)))
  }

  function ToolName(t: Tool): string { if t.ValidateDraft? then "validate_draft" else "submit_draft" }

  function CallRowOf(c: Call): CallRow {
    match c
    case Described => CallRow(Some("describe_vocabulary"), None, None)
    case Evaluated(tool, digest, v) =>
      CallRow(Some(ToolName(tool)), Some(digest),
              Some(ResultRow(Some(v.Valid?), Some(digest), Some(ErrorsOf(v)), if v.Valid? then Some(v.packageDigest)
                else None)))
  }

  /** What src/admin.py:92-129 and the scenario write down of a session that ended approved and was published. */
  function RecordOf(l: Limits, s: State, packageDigest: string, template: Template, modelCalls: nat): Record {
    Record(Some(0), Some("published"),
           OutcomeRow(Some("approved"), false, false,
                      seq(|s.rounds|, i requires 0 <= i < |s.rounds| => RoundRowOf(s.rounds[i])),
                      seq(|s.calls|, i requires 0 <= i < |s.calls| => CallRowOf(s.calls[i])),
                      Some(packageDigest), template),
           Some(modelCalls), Some(l.maxRounds), Some(l.maxModelCalls), Some(l.maxToolCalls),
           ApprovalRow(Some("approved"), Some("auto"), Some(packageDigest)), Some(packageDigest))
  }

  predicate IsTool(c: Call, t: Tool) { c.Evaluated? && c.tool == t }

  /** The first validation precedes the first submission. */
  ghost predicate ValidatesBeforeSubmitting(calls: seq<Call>) {
    && (exists k :: 0 <= k < |calls| && IsTool(calls[k], SubmitDraft))
    && forall k :: 0 <= k < |calls| && IsTool(calls[k], SubmitDraft) ==>
         exists i :: 0 <= i < k && IsTool(calls[i], ValidateDraft)
  }

  ghost predicate LastSubmissionSucceeds(calls: seq<Call>) {
    exists k :: 0 <= k < |calls| && IsSubmission(calls[k])
      && forall i :: k < i < |calls| ==> !IsTool(calls[i], SubmitDraft)
  }

  /** The fields of the record that do not list anything. */
  lemma RecordFields(l: Limits, s: State, packageDigest: string, template: Template, modelCalls: nat)
    ensures var r := RecordOf(l, s, packageDigest, template, modelCalls);
      && Published(r) && |r.outcome.calls| == |s.calls| && |r.outcome.rounds| == |s.rounds|
      && r.modelCalls == Some(modelCalls) && r.maxRounds == Some(l.maxRounds)
      && r.maxModelCalls == Some(l.maxModelCalls)
      && r.maxToolCalls == Some(l.maxToolCalls) && r.outcome.packageDigest == Some(packageDigest)
      && r.approval == ApprovalRow(Some("approved"), Some("auto"), Some(packageDigest))
      && r.publishedDigest == Some(packageDigest)
  {
  }

  lemma RowsMatchCalls(l: Limits, s: State, packageDigest: string, template: Template, modelCalls: nat)
    ensures var o := RecordOf(l, s, packageDigest, template, modelCalls).outcome;
      && |o.calls| == |s.calls| && |o.rounds| == |s.rounds|
      && (forall i :: 0 <= i < |s.calls| ==> o.calls[i] == CallRowOf(s.calls[i]))
      && (forall i :: 0 <= i < |s.rounds| ==> o.rounds[i] == RoundRowOf(s.rounds[i]))
      && NotADict !in o.calls
      && (forall i :: 0 <= i < |s.calls| ==>
            && (UsesTool(o.calls[i], "submit_draft") <==> IsTool(s.calls[i], SubmitDraft))
            && (UsesTool(o.calls[i], "validate_draft") <==> IsTool(s.calls[i], ValidateDraft)))
  {
    assert "submit_draft"[0] != "validate_draft"[0] && "describe_vocabulary"[0] != "submit_draft"[0];
    assert "describe_vocabulary"[0] != "validate_draft"[0];
  }

  lemma OrderAgrees(l: Limits, s: State, packageDigest: string, template: Template, modelCalls: nat)
    ensures ValidatedFirst(RecordOf(l, s, packageDigest, template, modelCalls).outcome.calls) <==>
      ValidatesBeforeSubmitting(s.calls)
  {
    hide CallRowOf, UsesTool, IsTool, RecordOf;
    RowsMatchCalls(l, s, packageDigest, template, modelCalls);
    var calls := RecordOf(l, s, packageDigest, template, modelCalls).outcome.calls;
    var v, u := FirstUse(calls, "validate_draft"), FirstUse(calls, "submit_draft");
    if ValidatedFirst(calls) {
      forall k | 0 <= k < |s.calls| && IsTool(s.calls[k], SubmitDraft)
        ensures exists i :: 0 <= i < k && IsTool(s.calls[i], ValidateDraft)
      {
        assert 0 <= v.value < k && IsTool(s.calls[v.value], ValidateDraft);
      }
      assert IsTool(s.calls[u.value], SubmitDraft);
    }
    if ValidatesBeforeSubmitting(s.calls) {
      assert u.Some?;
      var i :| 0 <= i < u.value && IsTool(s.calls[i], ValidateDraft);
      assert UsesTool(calls[i], "validate_draft");
    }
  }

  lemma RowsAreStructured(l: Limits, s: State, packageDigest: string, template: Template, modelCalls: nat)
    requires Inv(l, s)
    ensures var o := RecordOf(l, s, packageDigest, template, modelCalls).outcome;
      && (forall row :: row in o.rounds ==> StructuredRound(row)) && CallsMatchRounds(o)
  {
    hide IsTool, ErrorsOf;
    RowsMatchCalls(l, s, packageDigest, template, modelCalls);
    var o := RecordOf(l, s, packageDigest, template, modelCalls).outcome;
    forall c | c in o.calls && Evaluates(c) ensures StructuredCall(c) && InRound(c, o.rounds) {
      var k :| 0 <= k < |s.calls| && o.calls[k] == c;
      assert s.calls[k] in s.calls && s.calls[k].Evaluated?;
      VerdictIsStructured(s.calls[k].result, s.calls[k].digest);
      assert HasRound(s, s.calls[k].digest);
      var i :| 0 <= i < |s.rounds| && s.rounds[i].digest == s.calls[k].digest;
      assert o.rounds[i] == RoundRowOf(s.rounds[i]);
    }
    forall row | row in o.rounds ensures StructuredRound(row) {
      var i :| 0 <= i < |s.rounds| && o.rounds[i] == row;
      VerdictIsStructured(s.rounds[i].verdict, s.rounds[i].digest);
    }
  }

  lemma VerdictIsStructured(v: Verdict, digest: string)
    ensures Structured(Some(v.Valid?), Some(digest), Some(ErrorsOf(v)))
  {
  }

  lemma {:induction false} SubmittedAtLast(calls: seq<Call>, k: nat)
    requires k < |calls| && IsSubmission(calls[k]) && forall i :: k < i < |calls| ==> !IsTool(calls[i], SubmitDraft)
    ensures LastSubmission(calls) == Some((calls[k].digest, calls[k].result.packageDigest))
  {
    if k < |calls| - 1 { SubmittedAtLast(calls[..|calls| - 1], k); }
  }

  lemma CallRound(s: State, k: nat) returns (i: nat)
    requires RoundsOk(s) && CallsOk(s) && k < |s.calls| && s.calls[k].Evaluated?
    ensures i < |s.rounds| && s.rounds[i].digest == s.calls[k].digest && s.rounds[i].verdict == s.calls[k].result
  {
    assert s.calls[k] in s.calls && HasRound(s, s.calls[k].digest);
    i :| 0 <= i < |s.rounds| && s.rounds[i].digest == s.calls[k].digest;
  }

  /** Whether the last submission succeeded is what the checker's last clauses come to, once the approval and the
      publication pin the package submitted. */
  lemma PinAgrees(l: Limits, s: State, packageDigest: string, template: Template, modelCalls: nat)
    requires Inv(l, s) && s.submitted.Some? && s.submitted.value.1 == packageDigest
    ensures SubmissionPinned(RecordOf(l, s, packageDigest, template, modelCalls)) <==> LastSubmissionSucceeds(s.calls)
  {
    hide SubmissionPinned, Inv, RecordOf;
    RowsMatchCalls(l, s, packageDigest, template, modelCalls);
    if LastSubmissionSucceeds(s.calls) {
      var k :| 0 <= k < |s.calls| && IsSubmission(s.calls[k])
        && forall i :: k < i < |s.calls| ==> !IsTool(s.calls[i], SubmitDraft);
      SuccessIsPinned(l, s, packageDigest, template, modelCalls, k);
    } else if SubmissionPinned(RecordOf(l, s, packageDigest, template, modelCalls)) {
      PinIsSuccess(l, s, packageDigest, template, modelCalls);
    }
  }

  lemma SuccessIsPinned(l: Limits, s: State, packageDigest: string, template: Template, modelCalls: nat, k: nat)
    requires Inv(l, s) && s.submitted.Some? && s.submitted.value.1 == packageDigest
    requires k < |s.calls| && IsSubmission(s.calls[k]) && forall i :: k < i < |s.calls| ==>
      !IsTool(s.calls[i], SubmitDraft)
    ensures SubmissionPinned(RecordOf(l, s, packageDigest, template, modelCalls))
  {
    hide ErrorsOf, RecordOf, RoundsOk, AcceptedOk;
    RecordFields(l, s, packageDigest, template, modelCalls);
    RowsMatchCalls(l, s, packageDigest, template, modelCalls);
    var r := RecordOf(l, s, packageDigest, template, modelCalls);
    SubmittedAtLast(s.calls, k);
    assert UsesTool(r.outcome.calls[k], "submit_draft");
    assert LastUse(r.outcome.calls, "submit_draft") == Some(k);
    var i := CallRound(s, k);
    assert r.outcome.rounds[i].digest == r.outcome.calls[k].digest && r.outcome.rounds[i].valid == Some(true);
  }

  lemma PinIsSuccess(l: Limits, s: State, packageDigest: string, template: Template, modelCalls: nat)
    requires SubmissionPinned(RecordOf(l, s, packageDigest, template, modelCalls))
    ensures LastSubmissionSucceeds(s.calls)
  {
    hide ErrorsOf, RecordOf;
    RowsMatchCalls(l, s, packageDigest, template, modelCalls);
    var calls := RecordOf(l, s, packageDigest, template, modelCalls).outcome.calls;
    assert IsSubmission(s.calls[LastUse(calls, "submit_draft").value]);
  }

  /** The checker agrees with the session. The record of an approved and published session is accepted exactly when
      the first validation preceded the first submission and the last submission succeeded. */
  lemma CheckerAgreesWithSession(l: Limits, events: seq<Event>, ending: Ending, late: bool, template: Template,
      modelCalls: nat)
    requires Conclude(Run(l, FRESH, events), ending, late).Approved? && 1 <= modelCalls <= l.maxModelCalls
    ensures var s := Run(l, FRESH, events);
      var record := RecordOf(l, s, Conclude(s, ending, late).packageDigest, template, modelCalls);
      Acceptable("codex-subscription", record) <==>
        ValidatesBeforeSubmitting(s.calls) && LastSubmissionSucceeds(s.calls)
  {
    hide StructuredRound, CallsMatchRounds, ValidatedFirst, SubmissionPinned, RepairLoop, Run, RecordOf, RoundsOk,
      AcceptedOk,
      CallsOk, ValidatesBeforeSubmitting, LastSubmissionSucceeds, CallRowOf, RoundRowOf;
    FreshInv(l);
    RunKeeps(l, FRESH, events);
    var s := Run(l, FRESH, events);
    var packageDigest := Conclude(s, ending, late).packageDigest;
    RecordFields(l, s, packageDigest, template, modelCalls);
    RowsMatchCalls(l, s, packageDigest, template, modelCalls);
    RowsAreStructured(l, s, packageDigest, template, modelCalls);
    OrderAgrees(l, s, packageDigest, template, modelCalls);
    PinAgrees(l, s, packageDigest, template, modelCalls);
    SubmissionIsRound(l, s);
  }

  lemma {:induction false} SubmissionAmong(calls: seq<Call>)
    requires LastSubmission(calls).Some?
    ensures exists c :: c in calls && IsSubmission(c)
  {
    if IsSubmission(calls[|calls| - 1]) {
      assert calls[|calls| - 1] in calls;
    } else {
      SubmissionAmong(calls[..|calls| - 1]);
      var c :| c in calls[..|calls| - 1] && IsSubmission(c);
      assert c in calls;
    }
  }

  lemma SubmissionIsRound(l: Limits, s: State)
    requires Inv(l, s) && s.submitted.Some?
    ensures |s.rounds| >= 1 && |s.calls| >= 1
  {
    SubmissionAmong(s.calls);
    var c :| c in s.calls && IsSubmission(c);
    assert HasRound(s, c.digest);
  }

  /** The two ways a session can be published and still be rejected: it never validates, or a submission that
      succeeded is followed by one that did not. */
  lemma PublishedButRejected(l: Limits, template: Template)
    requires l.maxRounds >= 2 && l.maxModelCalls >= 1 && l.maxToolCalls >= 3
    ensures var s := Run(l, FRESH, [Evaluate(SubmitDraft, "a", Valid("p"), false)]);
      && Conclude(s, Finished, false) == Approved("p")
      && !Acceptable("codex-subscription", RecordOf(l, s, "p", template, 1))
    ensures var no := Invalid(DraftError("bad", None));
      var s := Run(l, FRESH,
        [Evaluate(ValidateDraft, "a", Valid("p"), false), Evaluate(SubmitDraft, "a", Valid("p"), false),
                              Evaluate(SubmitDraft, "b", no, false)]);
      && Conclude(s, Finished, false) == Approved("p")
      && !Acceptable("codex-subscription", RecordOf(l, s, "p", template, 1))
  {
    hide Acceptable, RecordOf;
    var no := Invalid(DraftError("bad", None));
    var one := [Evaluate(SubmitDraft, "a", Valid("p"), false)];
    var s1 := Step(l, FRESH, one[0]);
    assert Run(l, s1, one[1..]) == s1;
    assert s1.calls == [Evaluated(SubmitDraft, "a", Valid("p"))];
    assert IsTool(s1.calls[0], SubmitDraft);
    CheckerAgreesWithSession(l, one, Finished, false, template, 1);
    var three := [Evaluate(ValidateDraft, "a", Valid("p"), false), Evaluate(SubmitDraft, "a", Valid("p"), false),
      Evaluate(SubmitDraft, "b", no, false)];
    var t1 := Step(l, FRESH, three[0]);
    var t2 := Step(l, t1, three[1]);
    var t3 := Step(l, t2, three[2]);
    assert three[1..][0] == three[1] && three[1..][1..] == [three[2]] && [three[2]][1..] == [];
    assert Run(l, t3, []) == t3 && Run(l, t2, [three[2]]) == t3 && Run(l, t1, three[1..]) == t3;
    assert Run(l, FRESH, three) == t3;
    assert t3.calls == [Evaluated(ValidateDraft, "a", Valid("p")), Evaluated(SubmitDraft, "a", Valid("p")),
      Evaluated(SubmitDraft, "b", no)];
    assert IsTool(t3.calls[2], SubmitDraft) && !IsSubmission(t3.calls[2]);
    CheckerAgreesWithSession(l, three, Finished, false, template, 1);
  }
}
