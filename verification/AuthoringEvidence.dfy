/** What an accepted authoring record proves, said over its calls and rounds: `authoring_acceptance` of
    prototype/temporal-factory/scenarios/live_authoring.py. */
module AuthoringEvidence {
  import opened Prelude
  import opened AuthoringAcceptance

  /** Call k submits a draft successfully, and no later call submits anything. */
  predicate LastSubmits(o: OutcomeRow, k: nat) {
    && k < |o.calls| && o.calls[k].CallRow? && o.calls[k].tool == Some("submit_draft")
    && o.calls[k].result.Some? && o.calls[k].result.value.ok == Some(true)
    && forall i :: k < i < |o.calls| ==> !(o.calls[i].CallRow? && o.calls[i].tool == Some("submit_draft"))
  }

  /** A validation comes before every submission. */
  predicate ValidatesFirst(o: OutcomeRow) {
    exists i :: 0 <= i < |o.calls| && o.calls[i].CallRow? && o.calls[i].tool == Some("validate_draft")
      && forall k :: 0 <= k < |o.calls| && o.calls[k].CallRow? && o.calls[k].tool == Some("submit_draft") ==> i < k
  }

  /** A round gave this draft this verdict. */
  predicate HasVerdict(o: OutcomeRow, digest: Option<string>, ok: Option<bool>) {
    exists i :: 0 <= i < |o.rounds| && o.rounds[i].digest == digest && o.rounds[i].valid == ok
  }

  /** A verdict with its errors: there are errors exactly when it is negative, and each has a code and a message. */
  predicate Grounded(ok: Option<bool>, digest: Option<string>, errors: Option<seq<ErrorRow>>) {
    && ok.Some? && digest.Some? && errors.Some? && (ok.value <==> |errors.value| == 0)
    && forall i :: 0 <= i < |errors.value| ==> errors.value[i].code.Some? && errors.value[i].message.Some?
  }

  predicate EvaluatesDraft(c: CallRow) {
    c.CallRow? && c.tool.Some? && c.tool.value in {"submit_draft", "validate_draft"}
  }

  /** Every validation and submission has a grounded verdict, of the draft it names, that some round gave. */
  predicate CallsAreBacked(o: OutcomeRow) {
    forall k :: 0 <= k < |o.calls| && EvaluatesDraft(o.calls[k]) ==>
      o.calls[k].result.Some? && CallIsBacked(o, o.calls[k].digest, o.calls[k].result.value)
  }

  predicate CallIsBacked(o: OutcomeRow, digest: Option<string>, result: ResultRow) {
    Grounded(result.ok, result.digest, result.errors) && digest == result.digest && HasVerdict(o, digest, result.ok)
  }

  predicate InCap(count: int, cap: Option<int>) { 1 <= count && cap.Some? && count <= cap.value }

  /** What the record claims besides its rounds and calls, when the last submission is call k. */
  predicate ClaimsFit(r: Record, k: nat)
    requires k < |r.outcome.calls| && r.outcome.calls[k].CallRow? && r.outcome.calls[k].result.Some?
  {
    var p := r.outcome.calls[k].result.value.packageDigest;
    && r.exitCode == Some(0) && r.status == Some("published") && r.outcome.status == Some("approved")
    && !r.outcome.abort && !r.outcome.error
    && p.Some? && r.outcome.packageDigest == p && r.approval == ApprovalRow(Some("approved"), Some("auto"), p)
    && r.publishedDigest == p
  }

  /** Everything the checker relies on. */
  ghost predicate Evidence(r: Record) {
    && InCap(|r.outcome.rounds|, r.maxRounds) && InCap(|r.outcome.calls|, r.maxToolCalls)
    && r.modelCalls.Some? && InCap(r.modelCalls.value, r.maxModelCalls)
    && (forall k :: 0 <= k < |r.outcome.calls| ==> r.outcome.calls[k].CallRow?)
    && (forall i :: 0 <= i < |r.outcome.rounds| ==>
          Grounded(r.outcome.rounds[i].valid, r.outcome.rounds[i].digest, r.outcome.rounds[i].errors))
    && ValidatesFirst(r.outcome) && CallsAreBacked(r.outcome)
    && exists k: nat :: LastSubmits(r.outcome, k) && PinnedAt(r, k)
  }

  /** The draft of call k was found valid in a round, and the record's claims are its package's. */
  predicate PinnedAt(r: Record, k: nat)
    requires LastSubmits(r.outcome, k)
  {
    HasVerdict(r.outcome, r.outcome.calls[k].digest, Some(true)) && ClaimsFit(r, k)
  }

  lemma GroundedIsStructured(ok: Option<bool>, digest: Option<string>, errors: Option<seq<ErrorRow>>)
    ensures Grounded(ok, digest, errors) <==> Structured(ok, digest, errors)
  {
    if Structured(ok, digest, errors) {
      forall i | 0 <= i < |errors.value| ensures errors.value[i].code.Some? && errors.value[i].message.Some? {
        assert errors.value[i] in errors.value;
      }
    }
  }

  lemma OrderIsFirst(o: OutcomeRow)
    requires exists k: nat :: LastSubmits(o, k)
    ensures ValidatesFirst(o) <==> ValidatedFirst(o.calls)
  {
    var k: nat :| LastSubmits(o, k);
    assert UsesTool(o.calls[k], "submit_draft");
    var v, s := FirstUse(o.calls, "validate_draft"), FirstUse(o.calls, "submit_draft");
    if ValidatedFirst(o.calls) {
      assert forall k :: 0 <= k < |o.calls| && o.calls[k].CallRow? && o.calls[k].tool == Some("submit_draft") ==>
        UsesTool(o.calls[k], "submit_draft");
      assert o.calls[v.value].CallRow? && o.calls[v.value].tool == Some("validate_draft");
    }
  }

  lemma BackedIsMatched(o: OutcomeRow)
    ensures CallsAreBacked(o) <==> CallsMatchRounds(o)
  {
    hide Grounded, Structured;
    forall k | 0 <= k < |o.calls| ensures o.calls[k] in o.calls {}
    forall c | c in o.calls && Evaluates(c) && c.CallRow? && c.result.Some? {
      GroundedIsStructured(c.result.value.ok, c.result.value.digest, c.result.value.errors);
    }
  }

  lemma PinnedIsSubmitted(r: Record)
    requires Published(r)
    ensures SubmissionPinned(r) <==> exists k: nat :: LastSubmits(r.outcome, k) && PinnedAt(r, k)
  {
    hide Published;
    var o := r.outcome;
    var last := LastUse(o.calls, "submit_draft");
    if SubmissionPinned(r) {
      assert LastSubmits(o, last.value);
      PublishedClaims(r);
      assert PinnedAt(r, last.value);
    }
    if k: nat :| LastSubmits(o, k) && PinnedAt(r, k) {
      LastIsLast(o, k);
    }
  }

  lemma PublishedClaims(r: Record)
    ensures Published(r) <==>
      r.exitCode == Some(0) && r.status == Some("published") && r.outcome.status == Some("approved")
      && !r.outcome.abort && !r.outcome.error
  {
  }

  lemma LastIsLast(o: OutcomeRow, k: nat)
    requires LastSubmits(o, k)
    ensures LastUse(o.calls, "submit_draft") == Some(k)
  {
    assert UsesTool(o.calls[k], "submit_draft");
  }

  /** A record is accepted, from either provider, exactly on this evidence; the synthetic provider must also show its
      scripted repair. */
  lemma AcceptedExactly(provider: string, r: Record)
    ensures Acceptable(provider, r) <==>
      && provider in {"synthetic-loopback", "codex-subscription"} && Evidence(r)
      && (provider == "synthetic-loopback" ==> RepairLoop(r.outcome))
  {
    hide Grounded, Structured, RepairLoop, SubmissionPinned, PinnedAt, LastSubmits, ValidatesFirst, ValidatedFirst,
      CallsAreBacked, CallsMatchRounds;
    var o := r.outcome;
    forall row | row in o.rounds ensures StructuredRound(row) <==> Grounded(row.valid, row.digest, row.errors) {
      GroundedIsStructured(row.valid, row.digest, row.errors);
    }
    assert forall i :: 0 <= i < |o.rounds| ==> o.rounds[i] in o.rounds;
    assert forall k :: 0 <= k < |o.calls| ==> o.calls[k] in o.calls;
    BackedIsMatched(o);
    if Published(r) { PinnedIsSubmitted(r); }
    if k: nat :| LastSubmits(o, k) && PinnedAt(r, k) {
      OrderIsFirst(o);
      ClaimsArePublished(r, k);
    }
  }

  lemma ClaimsArePublished(r: Record, k: nat)
    requires LastSubmits(r.outcome, k) && PinnedAt(r, k)
    ensures Published(r)
  {
  }

  /** The calls of an accepted record determine everything else it claims: whoever alters the exit code, a status, the
      approval or a package digest without altering the calls gets the record rejected. */
  lemma ClaimsFollowFromCalls(provider: string, r: Record, r': Record)
    requires Acceptable(provider, r) && Acceptable(provider, r') && r.outcome.calls == r'.outcome.calls
    ensures r'.exitCode == r.exitCode && r'.status == r.status && r'.outcome.status == r.outcome.status
    ensures r'.outcome.abort == r.outcome.abort && r'.outcome.error == r.outcome.error
    ensures r'.outcome.packageDigest == r.outcome.packageDigest && r'.approval == r.approval
    ensures r'.publishedDigest == r.publishedDigest
  {
    hide Acceptable, CallsAreBacked, Grounded, ValidatesFirst, HasVerdict;
    AcceptedExactly(provider, r);
    AcceptedExactly(provider, r');
    var k: nat :| LastSubmits(r.outcome, k) && PinnedAt(r, k);
    var k': nat :| LastSubmits(r'.outcome, k') && PinnedAt(r', k');
    LastIsLast(r.outcome, k);
    LastIsLast(r'.outcome, k');
  }

  /** The invalid rounds among the checker's facts are those of the record, each as often as the record has it. */
  lemma {:induction false} InvalidRoundsExactly(rounds: seq<RoundRow>, row: RoundRow)
    ensures multiset(InvalidRounds(rounds))[row] == if row.valid == Some(false) then multiset(rounds)[row] else 0
  {
    if rounds != [] {
      InvalidRoundsExactly(rounds[1..], row);
      assert rounds == [rounds[0]] + rounds[1..];
      assert multiset(rounds) == multiset([rounds[0]]) + multiset(rounds[1..]);
    }
  }
}
