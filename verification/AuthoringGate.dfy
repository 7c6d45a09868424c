/** When the tools of an authoring session run, said over its rounds and calls: `check_tool_call`, `evaluate` and the
    end of `author` in prototype/temporal-factory/src/authoring.py. */
module AuthoringGate {
  import opened Prelude
  import opened Authoring

  /** Some earlier round judged this draft, and found it valid. */
  ghost predicate FoundValid(s: State, digest: string) {
    exists i :: 0 <= i < |s.rounds| && s.rounds[i].digest == digest && s.rounds[i].verdict.Valid?
  }

  /** What a tool call needs to run. */
  ghost predicate MayRun(l: Limits, s: State, e: Event)
    requires !e.Stream?
  {
    && s.reason.None? && !e.late && |s.calls| < l.maxToolCalls
    && (|s.rounds| < l.maxRounds || (e.Evaluate? && FoundValid(s, e.digest)))
  }

  /** Why one that may not run stops the session: the reason already set, or the first that applies. */
  ghost predicate StopsFor(l: Limits, s: State, e: Event, stop: Stop)
    requires !e.Stream?
  {
    if s.reason.Some? then stop == s.reason.value
    else if e.late then stop.Deadline?
    else if |s.rounds| >= l.maxRounds && !(e.Evaluate? && FoundValid(s, e.digest)) then stop.RoundLimit?
    else stop.ToolCallLimit? && |s.calls| >= l.maxToolCalls
  }

  /** The verdict of a draft: that of its round, or, for a new draft, the one given now, which makes a round. */
  ghost predicate Judged(s: State, s': State, digest: string, given: Verdict, result: Verdict) {
    if exists i :: 0 <= i < |s.rounds| && s.rounds[i].digest == digest then
      && s'.rounds == s.rounds
      && forall i :: 0 <= i < |s.rounds| && s.rounds[i].digest == digest ==> result == s.rounds[i].verdict
    else result == given && s'.rounds == s.rounds + [Round(|s.rounds| + 1, digest, given)]
  }

  /** The call ran: one more call, counted once, and nothing stopped. */
  ghost predicate Ran(s: State, s': State, e: Event)
    requires !e.Stream?
  {
    && s'.reason.None? && s'.modelCalls == s.modelCalls && s'.toolCalls == s.toolCalls + 1
    && |s'.calls| == |s.calls| + 1 && s'.calls[..|s.calls|] == s.calls
    && var call := s'.calls[|s.calls|];
       if e.Describe? then call == Described && s'.rounds == s.rounds && s'.submitted == s.submitted
       else
         && call.Evaluated? && call.tool == e.tool && call.digest == e.digest
         && Judged(s, s', e.digest, e.verdict, call.result)
         && s'.submitted ==
              if e.tool.SubmitDraft? && call.result.Valid? then Some((e.digest, call.result.packageDigest))
              else s.submitted
  }

  lemma RoundOfSeen(l: Limits, s: State, digest: string)
    requires Inv(l, s)
    ensures digest in s.seen <==> exists i :: 0 <= i < |s.rounds| && s.rounds[i].digest == digest
    ensures digest in s.accepted <==> FoundValid(s, digest)
    ensures forall i :: 0 <= i < |s.rounds| && s.rounds[i].digest == digest ==>
      digest in s.seen && s.seen[digest] == s.rounds[i].verdict
  {
    if digest in s.seen { assert HasRound(s, digest); }
  }

  lemma OneMore(l: Limits, events: seq<Event>, e: Event)
    ensures Run(l, FRESH, events + [e]) == Step(l, Run(l, FRESH, events), e)
  {
    RunSnoc(l, FRESH, events, e);
  }

  lemma {:induction false} RunSnoc(l: Limits, s: State, events: seq<Event>, e: Event)
    ensures Run(l, s, events + [e]) == Step(l, Run(l, s, events), e)
    decreases |events|
  {
    hide Step;
    if events == [] {
      assert [] + [e] == [e] && [e][1..] == [];
      assert Run(l, Step(l, s, e), []) == Step(l, s, e);
    } else {
      assert (events + [e])[0] == events[0] && (events + [e])[1..] == events[1..] + [e];
      RunSnoc(l, Step(l, s, events[0]), events[1..], e);
    }
  }

  /** The gate, exactly, in every reachable session. A tool call runs, is recorded and is counted if and only if no
      reason is set, it is in time, fewer than `max_tool_calls` calls were made, and either fewer than `max_rounds`
      rounds exist or it evaluates a draft that some round found valid. Otherwise it sets the first reason that
      applies and changes nothing else. */
  lemma GateExactly(l: Limits, events: seq<Event>, e: Event)
    requires !e.Stream?
    ensures var s, s' := Run(l, FRESH, events), Run(l, FRESH, events + [e]);
      && (MayRun(l, s, e) <==> |s'.calls| > |s.calls|)
      && (MayRun(l, s, e) ==> Ran(s, s', e))
      && (!MayRun(l, s, e) ==> s'.reason.Some? && StopsFor(l, s, e, s'.reason.value) && s' == s.(reason := s'.reason))
  {
    hide Inv, Run, FoundValid;
    FreshInv(l);
    RunKeeps(l, FRESH, events);
    OneMore(l, events, e);
    var s := Run(l, FRESH, events);
    CallsAreCounted(l, s);
    if e.Evaluate? { RoundOfSeen(l, s, e.digest); }
  }

  lemma CallsAreCounted(l: Limits, s: State)
    requires Inv(l, s)
    ensures s.toolCalls == |s.calls|
  {
  }

  /** After the round limit, as before it, a timely submission of a draft found valid is recorded as the last
      submission, and a session that then ends by itself is approved with that draft's package. */
  lemma ValidDraftsCanBeSubmitted(l: Limits, events: seq<Event>, i: nat, given: Verdict)
    requires var s := Run(l, FRESH, events);
      && s.reason.None? && |s.calls| < l.maxToolCalls && i < |s.rounds| && s.rounds[i].verdict.Valid?
    ensures var s := Run(l, FRESH, events); var r := s.rounds[i];
      var s' := Run(l, FRESH, events + [Evaluate(SubmitDraft, r.digest, given, false)]);
      && LastSubmission(s'.calls) == Some((r.digest, r.verdict.packageDigest)) == s'.submitted
      && s'.rounds == s.rounds && Conclude(s', Finished, false) == Approved(r.verdict.packageDigest)
  {
    hide Run, Ran, RoundsOk, AcceptedOk;
    var s := Run(l, FRESH, events);
    var e := Evaluate(SubmitDraft, s.rounds[i].digest, given, false);
    assert FoundValid(s, s.rounds[i].digest);
    GateExactly(l, events, e);
    FreshInv(l);
    RunKeeps(l, FRESH, events);
    RunKeeps(l, FRESH, events + [e]);
    SubmissionRan(s, Run(l, FRESH, events + [e]), i, given);
  }

  lemma SubmissionRan(s: State, s': State, i: nat, given: Verdict)
    requires i < |s.rounds| && s.rounds[i].verdict.Valid?
    requires Ran(s, s', Evaluate(SubmitDraft, s.rounds[i].digest, given, false))
    ensures s'.submitted == Some((s.rounds[i].digest, s.rounds[i].verdict.packageDigest))
    ensures s'.rounds == s.rounds && s'.reason.None?
  {
  }

  /** A model call, in every reachable session: it is counted if and only if no reason is set, it is in time and fewer
      than `max_model_calls` were made; it never touches rounds, tool calls, submissions or the reason. */
  lemma ModelCallsExactly(l: Limits, events: seq<Event>, late: bool)
    ensures var s, s' := Run(l, FRESH, events), Run(l, FRESH, events + [Stream(late)]);
      && s' == s.(modelCalls := s'.modelCalls)
      && s'.modelCalls == s.modelCalls + if s.reason.None? && !late && s.modelCalls < l.maxModelCalls then 1 else 0
  {
    hide Run;
    OneMore(l, events, Stream(late));
  }

  /** How a session can end, and when. A set reason or an exhausted budget aborts, whatever was submitted; a run that
      ends by itself too late aborts too; a provider failure fails; otherwise the last successful submission decides. */
  lemma EndsExactly(l: Limits, events: seq<Event>, ending: Ending, late: bool)
    ensures var s := Run(l, FRESH, events); var outcome := Conclude(s, ending, late);
      var aborted := ending.Exhausted? || s.reason.Some? || (ending.Finished? && late);
      && (outcome.Aborted? <==> aborted)
      && (aborted && ending.Exhausted? ==> outcome.stop == ending.stop)
      && (aborted && !ending.Exhausted? ==> outcome.stop == if s.reason.Some? then s.reason.value else Deadline)
      && (outcome.Failed? <==> !aborted && ending.ProviderFailed?)
      && (outcome.Approved? <==> !aborted && ending.Finished? && exists c :: c in s.calls && IsSubmission(c))
      && (outcome.NoSubmission? <==> !aborted && ending.Finished? && forall c :: c in s.calls ==> !IsSubmission(c))
  {
    hide RoundsOk, AcceptedOk, Run;
    FreshInv(l);
    RunKeeps(l, FRESH, events);
    SubmittedAtAll(Run(l, FRESH, events).calls);
  }

  lemma {:induction false} SubmittedAtAll(calls: seq<Call>)
    ensures LastSubmission(calls).Some? <==> exists c :: c in calls && IsSubmission(c)
  {
    if calls != [] {
      var n := |calls| - 1;
      SubmittedAtAll(calls[..n]);
      if c :| c in calls[..n] && IsSubmission(c) { assert c in calls; }
      assert forall c :: c in calls ==> c in calls[..n] || c == calls[n];
      assert calls[n] in calls;
    }
  }
}
