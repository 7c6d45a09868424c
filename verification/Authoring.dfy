/** The bounded authoring session of prototype/temporal-factory/src/authoring.py (`StrandsGraphAuthor.author`,
    `_BudgetedModel.stream`). The model may make any tool calls in any order, a deadline may pass at any moment,
    and the package validator may give any verdict. */
module Authoring {
  import opened Prelude

  datatype Limits = Limits(maxRounds: nat, maxModelCalls: nat, maxToolCalls: nat)

  datatype Stop = Deadline | RoundLimit | ToolCallLimit | ModelCallLimit

  /** A validation error: its message and, for a missing route case, the path and the cases. */
  datatype DraftError = DraftError(message: string, missing: Option<(seq<string>, seq<string>)>)

  /** What validating a draft gives: the package digest, or the one error. */
  datatype Verdict = Valid(packageDigest: string) | Invalid(error: DraftError)

  datatype Round = Round(number: nat, digest: string, verdict: Verdict)

  datatype Tool = ValidateDraft | SubmitDraft

  datatype Call = Described | Evaluated(tool: Tool, digest: string, result: Verdict)

  /** The local variables of one `author` call; `accepted["submitted"]` is `submitted`, with its draft. */
  datatype State = State(
    rounds: seq<Round>, calls: seq<Call>, seen: map<string, Verdict>, accepted: map<string, string>,
    submitted: Option<(string, string)>, reason: Option<Stop>, toolCalls: nat, modelCalls: nat)

  const FRESH := State([], [], map[], map[], None, None, 0, 0)

  datatype Event =
    | Describe(late: bool)
    | Evaluate(tool: Tool, digest: string, verdict: Verdict, late: bool)
    | Stream(late: bool)

  /** The reason for which a tool call stops the session, if it does. `draft` is the draft of an evaluation. */
  function Refusal(l: Limits, s: State, draft: Option<string>, late: bool): Option<Stop> {
    if s.reason.Some? then s.reason
    else if late then Some(Deadline)
    else if |s.rounds| >= l.maxRounds && !(draft.Some? && draft.value in s.accepted) then Some(RoundLimit)
    else if s.toolCalls >= l.maxToolCalls then Some(ToolCallLimit)
    else None
  }

  /** A draft first seen: a new round, remembered, and kept if valid. */
  function Judge(s: State, digest: string, verdict: Verdict): State {
    if digest in s.seen then s
    else s.(
      seen := s.seen[digest := verdict],
      accepted := if verdict.Valid? then s.accepted[digest := verdict.packageDigest] else s.accepted,
      rounds := s.rounds + [Round(|s.rounds| + 1, digest, verdict)])
  }

  function Step(l: Limits, s: State, e: Event): State {
    match e
    case Describe(late) =>
      (match Refusal(l, s, None, late)
       case Some(stop) => s.(reason := Some(stop))
       case None => s.(toolCalls := s.toolCalls + 1, calls := s.calls + [Described]))
    case Evaluate(tool, digest, verdict, late) =>
      (match Refusal(l, s, Some(digest), late)
       case Some(stop) => s.(reason := Some(stop))
       case None =>
         var judged := Judge(s.(toolCalls := s.toolCalls + 1), digest, verdict);
         var result := judged.seen[digest];
         judged.(calls := judged.calls + [Evaluated(tool, digest, result)],
                 submitted := if tool.SubmitDraft? && result.Valid? then Some((digest, result.packageDigest))
                   else judged.submitted))
    case Stream(late) =>
      if s.reason.Some? || late || s.modelCalls >= l.maxModelCalls then s
      else s.(modelCalls := s.modelCalls + 1)
  }

  function Run(l: Limits, s: State, events: seq<Event>): State
    decreases |events|
  {
    if events == [] then s else Run(l, Step(l, s, events[0]), events[1..])
  }

  /** One authoring session, updated call by call. */
  class Session {
    const limits: Limits
    var rounds: seq<Round>
    var calls: seq<Call>
    var seen: map<string, Verdict>
    var accepted: map<string, string>
    var submitted: Option<(string, string)>
    var reason: Option<Stop>
    var toolCalls: nat
    var modelCalls: nat

    ghost function Now(): State
      reads this
    {
      State(rounds, calls, seen, accepted, submitted, reason, toolCalls, modelCalls)
    }

    constructor (l: Limits)
      ensures limits == l && Now() == FRESH
    {
      limits, rounds, calls, seen, accepted, submitted, reason, toolCalls, modelCalls := l, [], [], map[], map[],
        None, None, 0, 0;
    }

    /** `check_tool_call`. Some: AuthoringBudgetExhausted. */
    method CheckToolCall(draft: Option<string>, late: bool) returns (stopped: Option<Stop>)
      modifies `reason, `toolCalls
      ensures stopped == Refusal(limits, old(Now()), draft, late)
      ensures reason == if stopped.Some? then stopped else old(reason)
      ensures toolCalls == if stopped.Some? then old(toolCalls) else old(toolCalls) + 1
    {
      if reason.Some? { return reason; }
      if late {
        reason := Some(Deadline);
      } else if |rounds| >= limits.maxRounds && !(draft.Some? && draft.value in accepted) {
        reason := Some(RoundLimit);
      } else if toolCalls >= limits.maxToolCalls {
        reason := Some(ToolCallLimit);
      }
      if reason.Some? { return reason; }
      toolCalls := toolCalls + 1;
      stopped := None;
    }

    /** `describe_vocabulary`. */
    method DescribeVocabulary(late: bool) returns (stopped: Option<Stop>)
      modifies this
      ensures Now() == Step(limits, old(Now()), Describe(late))
      ensures stopped == Now().reason
    {
      stopped := CheckToolCall(None, late);
      if stopped.None? { calls := calls + [Described]; }
    }

    /** `evaluate`, for `validate_draft` and `submit_draft`; `verdict` is what the validator says if
        the draft has none yet. */
    method EvaluateDraft(tool: Tool, digest: string, verdict: Verdict, late: bool) returns (result: Result<Verdict>)
      modifies this
      ensures Now() == Step(limits, old(Now()), Evaluate(tool, digest, verdict, late))
      ensures result.Success? <==> Now().reason.None?
      ensures result.Success? ==> digest in Now().seen && result.value == Now().seen[digest]
    {
      var stopped := CheckToolCall(Some(digest), late);
      if stopped.Some? { return Failure("authoring budget exhausted"); }
      var given := verdict;
      if digest in seen {
        given := seen[digest];
      } else {
        if given.Valid? { accepted := accepted[digest := given.packageDigest]; }
        seen := seen[digest := given];
        rounds := rounds + [Round(|rounds| + 1, digest, given)];
      }
      if tool.SubmitDraft? && given.Valid? { submitted := Some((digest, given.packageDigest)); }
      calls := calls + [Evaluated(tool, digest, given)];
      result := Success(given);
    }

    /** `_BudgetedModel.stream`. Some: AuthoringBudgetExhausted. */
    method StreamModel(late: bool) returns (stopped: Option<Stop>)
      modifies `modelCalls
      ensures Now() == Step(limits, old(Now()), Stream(late))
      ensures stopped ==
        if old(reason).Some? then old(reason) else if late then Some(Deadline)
        else if old(modelCalls) >= limits.maxModelCalls then Some(ModelCallLimit) else None
      ensures stopped.None? <==> modelCalls == old(modelCalls) + 1
    {
      if reason.Some? { return reason; }
      if late { return Some(Deadline); }
      if modelCalls >= limits.maxModelCalls { return Some(ModelCallLimit); }
      modelCalls := modelCalls + 1;
      stopped := None;
    }
  }

  // What every run keeps.

  ghost predicate RoundsOk(s: State) {
    && (forall i :: 0 <= i < |s.rounds| ==>
          && s.rounds[i].number == i + 1
          && s.rounds[i].digest in s.seen && s.seen[s.rounds[i].digest] == s.rounds[i].verdict)
    && (forall i, k :: 0 <= i < k < |s.rounds| ==> s.rounds[i].digest != s.rounds[k].digest)
    && (forall d :: d in s.seen ==> HasRound(s, d))
  }

  ghost predicate HasRound(s: State, d: string) {
    exists i :: 0 <= i < |s.rounds| && s.rounds[i].digest == d
  }

  ghost predicate AcceptedOk(s: State) {
    && (forall d :: d in s.accepted ==> d in s.seen && s.seen[d].Valid? && s.accepted[d] == s.seen[d].packageDigest)
    && (forall d :: d in s.seen && s.seen[d].Valid? ==> d in s.accepted)
  }

  predicate IsSubmission(c: Call) { c.Evaluated? && c.tool.SubmitDraft? && c.result.Valid? }

  /** The last successful submission among the calls. */
  function LastSubmission(calls: seq<Call>): Option<(string, string)> {
    if calls == [] then None
    else
      var last := calls[|calls| - 1];
      if IsSubmission(last) then Some((last.digest, last.result.packageDigest))
        else LastSubmission(calls[..|calls| - 1])
  }

  ghost predicate CallsOk(s: State) {
    && (forall c :: c in s.calls && c.Evaluated? ==> c.digest in s.seen && s.seen[c.digest] == c.result)
    && s.submitted == LastSubmission(s.calls)
  }

  ghost predicate Inv(l: Limits, s: State) {
    && RoundsOk(s) && AcceptedOk(s) && CallsOk(s)
    && |s.rounds| <= l.maxRounds && s.toolCalls == |s.calls| <= l.maxToolCalls && s.modelCalls <= l.maxModelCalls
  }

  lemma JudgeKeepsRounds(s: State, digest: string, verdict: Verdict)
    requires RoundsOk(s)
    ensures RoundsOk(Judge(s, digest, verdict))
  {
    hide HasRound;
    var s' := Judge(s, digest, verdict);
    forall d | d in s'.seen ensures HasRound(s', d) { JudgedHasRound(s, digest, verdict, d); }
    if digest !in s.seen {
      forall i | 0 <= i < |s.rounds| ensures s.rounds[i].digest != digest {}
    }
  }

  lemma JudgedHasRound(s: State, digest: string, verdict: Verdict, d: string)
    requires RoundsOk(s) && d in Judge(s, digest, verdict).seen
    ensures HasRound(Judge(s, digest, verdict), d)
  {
    var s' := Judge(s, digest, verdict);
    if d in s.seen {
      assert HasRound(s, d);
      var i :| 0 <= i < |s.rounds| && s.rounds[i].digest == d;
      assert s'.rounds[i].digest == d;
    } else {
      assert s'.rounds[|s.rounds|].digest == d;
    }
  }

  lemma JudgeKeepsAccepted(s: State, digest: string, verdict: Verdict)
    requires AcceptedOk(s)
    ensures AcceptedOk(Judge(s, digest, verdict))
  {
  }

  lemma StepKeeps(l: Limits, s: State, e: Event)
    requires Inv(l, s)
    ensures Inv(l, Step(l, s, e))
  {
    hide Inv, Step;
    if e.Evaluate? && Refusal(l, s, Some(e.digest), e.late).None? {
      EvaluateKeeps(l, s, e);
    } else if e.Describe? && Refusal(l, s, None, e.late).None? {
      DescribeKeeps(l, s, e);
    } else {
      CountersKeep(l, s, e);
    }
  }

  lemma DescribeKeeps(l: Limits, s: State, e: Event)
    requires Inv(l, s) && e.Describe? && Refusal(l, s, None, e.late).None?
    ensures Inv(l, Step(l, s, e))
  {
    hide RoundsOk, AcceptedOk;
    var s' := Step(l, s, e);
    assert s'.calls[..|s'.calls| - 1] == s.calls;
    SameRounds(s, s');
  }

  lemma CountersKeep(l: Limits, s: State, e: Event)
    requires Inv(l, s)
    requires e.Evaluate? ==> Refusal(l, s, Some(e.digest), e.late).Some?
    requires e.Describe? ==> Refusal(l, s, None, e.late).Some?
    ensures Inv(l, Step(l, s, e))
  {
    hide RoundsOk, AcceptedOk, LastSubmission, Judge;
    SameRounds(s, Step(l, s, e));
  }

  lemma SameRounds(s: State, s': State)
    requires RoundsOk(s) && s'.rounds == s.rounds && s'.seen == s.seen
    ensures RoundsOk(s') && (AcceptedOk(s) && s'.accepted == s.accepted ==> AcceptedOk(s'))
  {
    forall d | d in s'.seen ensures HasRound(s', d) { assert HasRound(s, d); }
  }

  lemma AcceptedSeen(s: State, digest: string)
    requires RoundsOk(s) && AcceptedOk(s) && digest in s.accepted
    ensures digest in s.seen
  {
  }

  lemma JudgeFacts(s: State, digest: string, verdict: Verdict)
    ensures var judged := Judge(s, digest, verdict);
      && judged.(rounds := s.rounds, seen := s.seen, accepted := s.accepted) == s
      && digest in judged.seen && (forall d :: d in s.seen ==> d in judged.seen && judged.seen[d] == s.seen[d])
      && |judged.rounds| == |s.rounds| + if digest in s.seen then 0 else 1
  {
  }

  lemma EvaluateKeeps(l: Limits, s: State, e: Event)
    requires Inv(l, s) && e.Evaluate? && Refusal(l, s, Some(e.digest), e.late).None?
    ensures Inv(l, Step(l, s, e))
  {
    hide RoundsOk, AcceptedOk, Judge;
    var s' := Step(l, s, e);
    JudgeFacts(s.(toolCalls := s.toolCalls + 1), e.digest, e.verdict);
    SameRounds(s, s.(toolCalls := s.toolCalls + 1));
    var judged := Judge(s.(toolCalls := s.toolCalls + 1), e.digest, e.verdict);
    JudgeKeepsRounds(s.(toolCalls := s.toolCalls + 1), e.digest, e.verdict);
    JudgeKeepsAccepted(s.(toolCalls := s.toolCalls + 1), e.digest, e.verdict);
    SameRounds(judged, s');
    assert s'.calls[..|s'.calls| - 1] == s.calls;
    if e.digest in s.accepted { AcceptedSeen(s, e.digest); }
  }

  lemma {:induction false} RunKeeps(l: Limits, s: State, events: seq<Event>)
    requires Inv(l, s)
    ensures Inv(l, Run(l, s, events))
    decreases |events|
  {
    hide Inv, Step;
    if events != [] {
      StepKeeps(l, s, events[0]);
      RunKeeps(l, Step(l, s, events[0]), events[1..]);
    }
  }

  lemma FreshInv(l: Limits)
    ensures Inv(l, FRESH)
  {
  }

  predicate SameDraft(a: Call, b: Call) { a.Evaluated? && b.Evaluated? && a.digest == b.digest }

  /** Under any tool calls: no budget is exceeded; rounds hold distinct drafts, numbered in order, in step with
      `seen` and `accepted`; and every evaluation of a draft, however often repeated, gave its first verdict. */
  lemma BudgetsAndRounds(l: Limits, events: seq<Event>)
    ensures var s := Run(l, FRESH, events);
      && |s.rounds| <= l.maxRounds && s.toolCalls <= l.maxToolCalls && s.modelCalls <= l.maxModelCalls
      && |s.calls| == s.toolCalls
      && (forall i, k :: 0 <= i < k < |s.rounds| ==> s.rounds[i].digest != s.rounds[k].digest)
      && (forall i :: 0 <= i < |s.rounds| ==> s.rounds[i].number == i + 1)
      && (forall d :: d in s.seen <==> exists i :: 0 <= i < |s.rounds| && s.rounds[i].digest == d)
      && (forall i :: 0 <= i < |s.rounds| ==> (s.rounds[i].digest in s.accepted <==> s.rounds[i].verdict.Valid?))
      && (forall i, k :: 0 <= i < k < |s.calls| && SameDraft(s.calls[i], s.calls[k]) ==>
            s.calls[i].result == s.calls[k].result)
  {
    FreshInv(l);
    RunKeeps(l, FRESH, events);
    var s := Run(l, FRESH, events);
    forall d | d in s.seen ensures HasRound(s, d) {}
  }

  /** Once the round limit is reached, the only tool call that gets through is one on a draft already accepted;
      it makes no new round. */
  lemma OnlyAcceptedDraftsAfterTheLimit(l: Limits, events: seq<Event>, e: Event)
    requires |Run(l, FRESH, events).rounds| >= l.maxRounds && !e.Stream?
    requires |Step(l, Run(l, FRESH, events), e).calls| > |Run(l, FRESH, events).calls|
    ensures var s := Run(l, FRESH, events);
      e.Evaluate? && e.digest in s.accepted && Step(l, s, e).rounds == s.rounds && Step(l, s, e).accepted == s.accepted
  {
    FreshInv(l);
    RunKeeps(l, FRESH, events);
  }

  /** A set stop reason freezes the session: nothing changes it, not even the model-call counter. */
  lemma {:induction false} StopFreezes(l: Limits, s: State, events: seq<Event>)
    requires s.reason.Some?
    ensures Run(l, s, events) == s
    decreases |events|
  {
    if events != [] { StopFreezes(l, s, events[1..]); }
  }

  // How a session ends.

  /** How the agent's run ended: by itself, by an exhausted budget, or by a provider failure. */
  datatype Ending = Finished | Exhausted(stop: Stop) | ProviderFailed

  datatype Outcome =
    | Approved(packageDigest: string)
    | Aborted(stop: Stop)
    | Failed
    | NoSubmission

  /** authoring.py:338-371. */
  function Conclude(s: State, ending: Ending, late: bool): Outcome {
    if ending.Exhausted? then Aborted(ending.stop)
    else if s.reason.Some? then Aborted(s.reason.value)
    else if ending.Finished? && late then Aborted(Deadline)
    else if ending.ProviderFailed? then Failed
    else match s.submitted
      case Some((_, packageDigest)) => Approved(packageDigest)
      case None => NoSubmission
  }

  /** A session ends approved exactly when the agent ended by itself in time, nothing stopped it and some submission
      succeeded; the package is that of the last submission that did. */
  lemma ApprovedExactly(l: Limits, events: seq<Event>, ending: Ending, late: bool, packageDigest: string)
    ensures var s := Run(l, FRESH, events);
      Conclude(s, ending, late) == Approved(packageDigest) <==>
        && ending.Finished? && !late && s.reason.None?
        && LastSubmission(s.calls).Some? && LastSubmission(s.calls).value.1 == packageDigest
  {
    hide RoundsOk, AcceptedOk, Run;
    FreshInv(l);
    RunKeeps(l, FRESH, events);
  }
}
