/** The dispatch theorems, over every run from an empty deployment. */
module DispatchTheorems {
  import opened Prelude
  import opened Outcome
  import opened Dispatch
  import opened DispatchInvariant
  import opened DispatchSteps
  import opened DispatchRuns

  lemma InitialInv(idempotent: set<string>)
    ensures Inv(Initial(idempotent))
  {
  }

  lemma GrowthComposes(i: Journal, j: Journal, k: Journal)
    requires JournalGrows(i, j) && JournalGrows(j, k)
    ensures JournalGrows(i, k)
  {
  }

  /** Only three statements write the journal. */
  lemma QuietStep(v: Variant, w: World, e: Event)
    requires !e.BindContext? && !e.Insert? && !e.PutUpdate?
    ensures Step(v, w, e).journal == w.journal
  {
    hide AfterPut, AfterStale, AfterSend, AfterGet, AfterUncertainSend, Decide, PutOrRaise;
  }

  lemma UpdateGrows(v: Variant, w: World, a: nat, at: string)
    requires Inv(w) && a in w.attempts
    ensures JournalGrows(w.journal, PutUpdateStep(v, w, a, at).journal)
  {
    hide Chain, AsyncStep, RowOk, PacketOk, TaskOk, AcceptedOk, OneSender, OneMessage, JournaledTaskOk, AfterPut,
      AfterStale;
    var t := w.attempts[a];
    assert AttemptOk(w.journal, w.net, w.agents, t);
    if t.pc.Swapping? && w.journal.rows[t.input.actionId] == t.pc.prior {
      var j' := SwapKeepsJournal(w.journal, w.net, w.agents, t);
    }
  }

  lemma InsertGrows(w: World, a: nat, uuid: string)
    requires Inv(w) && a in w.attempts
    ensures JournalGrows(w.journal, InsertStep(w, a, uuid).journal)
  {
    hide Inv, Submission, InsertRow, JournalGrows;
    KeysMatch(w);
    var t := w.attempts[a];
    SameJournalGrows(w.journal);
    if t.pc.Contexted? && Submission(t.input, uuid, t.pc.contextId).Success? {
      InsertRowGrows(w.journal, Submission(t.input, uuid, t.pc.contextId).value);
    }
  }

  lemma SameJournalGrows(j: Journal)
    ensures JournalGrows(j, j)
  {
  }

  lemma InsertRowGrows(j: Journal, row: OutcomeRecord)
    requires j.rows.Keys == j.history.Keys
    ensures JournalGrows(j, InsertRow(j, row))
  {
  }

  /** Every event only adds rows and versions; a terminal row stays as it is. */
  lemma StepGrows(v: Variant, w: World, e: Event)
    requires Inv(w)
    ensures JournalGrows(w.journal, Step(v, w, e).journal)
  {
    hide Inv, PutUpdateStep, InsertStep;
    if !e.BindContext? && !e.Insert? && !e.PutUpdate? {
      QuietStep(v, w, e);
    } else if e.a in w.attempts {
      if e.PutUpdate? { UpdateGrows(v, w, e.a, e.at); }
      if e.Insert? { InsertGrows(w, e.a, e.uuid); }
    }
  }

  lemma KeysMatch(w: World)
    requires Inv(w)
    ensures w.journal.rows.Keys == w.journal.history.Keys
  {
  }

  /** The invariant holds, and the journal has only grown, after any run. */
  lemma {:induction false} RunKeepsInv(v: Variant, w: World, events: seq<Event>)
    requires Inv(w)
    ensures Inv(Run(v, w, events)) && JournalGrows(w.journal, Run(v, w, events).journal)
    decreases |events|
  {
    hide Inv;
    if events != [] {
      var w1 := Step(v, w, events[0]);
      StepKeepsInv(v, w, events[0]);
      StepGrows(v, w, events[0]);
      RunKeepsInv(v, w1, events[1..]);
      GrowthComposes(w.journal, w1.journal, Run(v, w1, events[1..]).journal);
    }
  }

  lemma {:induction false} RunConcat(v: Variant, w: World, xs: seq<Event>, ys: seq<Event>)
    ensures Run(v, w, xs + ys) == Run(v, Run(v, w, xs), ys)
    decreases |xs|
  {
    hide Step;
    if xs == [] {
      assert xs + ys == ys;
    } else {
      assert (xs + ys)[0] == xs[0] && (xs + ys)[1..] == xs[1..] + ys;
      RunConcat(v, Step(v, w, xs[0]), xs[1..], ys);
    }
  }

  lemma RunSnoc(v: Variant, w: World, xs: seq<Event>, e: Event)
    ensures Run(v, w, xs + [e]) == Step(v, Run(v, w, xs), e)
  {
    hide Step;
    RunConcat(v, w, xs, [e]);
    assert [e][1..] == [];
    assert Run(v, Step(v, Run(v, w, xs), e), []) == Step(v, Run(v, w, xs), e);
  }

  lemma ReachableInv(v: Variant, idempotent: set<string>, events: seq<Event>)
    ensures Inv(Run(v, Initial(idempotent), events))
  {
    InitialInv(idempotent);
    RunKeepsInv(v, Initial(idempotent), events);
  }

  /** The world before event `n` of a run from an empty deployment. */
  function Moment(v: Variant, idempotent: set<string>, events: seq<Event>, n: nat): World
    requires n <= |events|
  {
    Run(v, Initial(idempotent), events[..n])
  }

  lemma MomentNext(v: Variant, idempotent: set<string>, events: seq<Event>, n: nat)
    requires n < |events|
    ensures Moment(v, idempotent, events, n + 1) == Step(v, Moment(v, idempotent, events, n), events[n])
  {
    hide Step, Run;
    assert events[..n + 1] == events[..n] + [events[n]];
    RunSnoc(v, Initial(idempotent), events[..n], events[n]);
  }

  lemma MomentsGrow(v: Variant, idempotent: set<string>, events: seq<Event>, k: nat, m: nat)
    requires k <= m <= |events|
    ensures Inv(Moment(v, idempotent, events, k))
    ensures JournalGrows(Moment(v, idempotent, events, k).journal, Moment(v, idempotent, events, m).journal)
  {
    hide Inv, Run, JournalGrows;
    ReachableInv(v, idempotent, events[..k]);
    assert events[..m] == events[..k] + events[k..m];
    RunConcat(v, Initial(idempotent), events[..k], events[k..m]);
    RunKeepsInv(v, Moment(v, idempotent, events, k), events[k..m]);
  }

  lemma FirstMoment(v: Variant, idempotent: set<string>, events: seq<Event>)
    ensures Moment(v, idempotent, events, 0) == Initial(idempotent)
    ensures Moment(v, idempotent, events, |events|) == Run(v, Initial(idempotent), events)
  {
    assert events[..0] == [] && events[..|events|] == events;
  }

  /** In every run: one action has at most one Task; every Message on the wire carries its journal row's
      messageId, contextId, agent and content; and no agent ever sees a messageId with other content. */
  lemma AtMostOneTaskPerAction(v: Variant, idempotent: set<string>, events: seq<Event>)
    ensures var w := Run(v, Initial(idempotent), events);
      && !w.agents.conflict
      && (forall t, u :: t in w.agents.tasks && u in w.agents.tasks ==>
            w.agents.tasks[t].origin == w.agents.tasks[u].origin ==> t == u)
      && (forall n :: n in w.net.inflight && w.net.inflight[n].SendMessage? ==>
            var p := w.net.inflight[n];
            p.action in w.journal.rows && var b := w.journal.rows[p.action].binding;
            && b.messageId == Some(p.messageId) && b.contextId == Some(p.contextId)
            && b.pinnedIdentity == Some(p.identity) && b.payloadSha256 == Some(PayloadSha256(p.parts)))
  {
    hide ChainsOk, JournaledTasksOk, AttemptsOk, SendersOk;
    ReachableInv(v, idempotent, events);
    var w := Run(v, Initial(idempotent), events);
    forall t, u | t in w.agents.tasks && u in w.agents.tasks && w.agents.tasks[t].origin == w.agents.tasks[u].origin
      ensures t == u
    {
      OneTask(w.journal.rows, w.net, w.agents, w.used, w.sent, w.agents.tasks[t].origin, t, u);
    }
    forall n | n in w.net.inflight ensures PacketOk(w.journal.rows, w.agents.idempotent, w.net.inflight[n]) { }
  }

  /** The transition function that makes `next` of `prev`. */
  function TransitionTo(prev: OutcomeRecord, next: OutcomeRecord): Transition {
    if next.phase.Unknown? then Ambiguous
    else if next.phase.Working? && next.taskId.Some? then Started(Str(next.taskId.value))
    else if next.phase.Confirmed? && next.receipt.Some? then Finished(next.receipt.value)
    else Failed(if next.reason.Some? then next.reason.value else "")
  }

  lemma AsyncStepIsTransition(prev: OutcomeRecord, next: OutcomeRecord)
    requires AsyncStep(prev, next) && Shaped(prev)
    ensures Apply(prev, TransitionTo(prev, next)) == Success(next)
  {
  }

  /** No lost updates. In every run each version of a row is one legal transition of the version before it,
      numbered by its place; the binding never changes; a journaled Task id never changes; and the phase only
      moves forward, so a row is written at most four times. */
  lemma {:induction false} NoLostUpdates(v: Variant, idempotent: set<string>, events: seq<Event>, id: string)
    requires id in Run(v, Initial(idempotent), events).journal.rows
    ensures var j := Run(v, Initial(idempotent), events).journal;
      && id in j.history && 1 <= |j.history[id]| <= 4 && j.history[id][|j.history[id]| - 1] == j.rows[id]
      && (forall k :: 0 <= k < |j.history[id]| ==>
            j.history[id][k].sequence == k && j.history[id][k].binding == j.rows[id].binding)
      && (forall k :: 0 < k < |j.history[id]| ==>
            && Apply(j.history[id][k - 1], TransitionTo(j.history[id][k - 1], j.history[id][k]))
               == Success(j.history[id][k])
            && Rank(j.history[id][k - 1].phase) < Rank(j.history[id][k].phase)
            && (j.history[id][k - 1].taskId.Some? ==> j.history[id][k].taskId == j.history[id][k - 1].taskId))
  {
    ReachableInv(v, idempotent, events);
    var j := Run(v, Initial(idempotent), events).journal;
    assert ChainsOk(j) by { hide ChainsOk; }
    ChainFacts(id, j.history[id], j.rows[id]);
  }

  lemma ChainFacts(id: string, h: seq<OutcomeRecord>, row: OutcomeRecord)
    requires Chain(id, h, row)
    ensures 1 <= |h| <= 4 && h[|h| - 1] == row
    ensures forall k :: 0 <= k < |h| ==> h[k].sequence == k && h[k].binding == row.binding && Rank(h[k].phase) >= k
    ensures forall k :: 0 < k < |h| ==>
      && Apply(h[k - 1], TransitionTo(h[k - 1], h[k])) == Success(h[k])
      && Rank(h[k - 1].phase) < Rank(h[k].phase)
      && (h[k - 1].taskId.Some? ==> h[k].taskId == h[k - 1].taskId)
  {
    hide AsyncStep, Apply, TransitionTo;
    forall k | 0 < k < |h| ensures
      && Apply(h[k - 1], TransitionTo(h[k - 1], h[k])) == Success(h[k])
      && Rank(h[k - 1].phase) < Rank(h[k].phase)
      && (h[k - 1].taskId.Some? ==> h[k].taskId == h[k - 1].taskId)
    {
      assert Version(id, row.binding, k - 1, h[k - 1]);
      AsyncStepFacts(h[k - 1], h[k]);
      AsyncStepIsTransition(h[k - 1], h[k]);
    }
    RanksClimb(h, |h| - 1);
    forall k | 0 <= k < |h| ensures Rank(h[k].phase) >= k { RanksClimb(h, k); }
    assert forall k :: 0 <= k < |h| ==> Version(id, row.binding, k, h[k]);
  }

  lemma {:induction false} RanksClimb(h: seq<OutcomeRecord>, k: nat)
    requires k < |h| && forall i :: 0 < i < |h| ==> Rank(h[i - 1].phase) < Rank(h[i].phase)
    ensures Rank(h[k].phase) >= k
  {
    if k > 0 { RanksClimb(h, k - 1); }
  }

  predicate DecidedAnswer(pc: Pc) { pc.Done? && (pc.answer.Returned? || pc.answer.Unresolved?) }

  /** Agreement. Whenever two attempts of one action, at any two moments of any run, have returned a decided
      result, it is the same result: that of the row, which is terminal and never changes again. */
  lemma Agreement(v: Variant, idempotent: set<string>, before: seq<Event>, later: seq<Event>, a: nat, b: nat)
    requires var w := Run(v, Initial(idempotent), before); var w' := Run(v, w, later);
      && a in w.attempts && DecidedAnswer(w.attempts[a].pc)
      && b in w'.attempts && DecidedAnswer(w'.attempts[b].pc)
      && w.attempts[a].input.actionId == w'.attempts[b].input.actionId
    ensures var w := Run(v, Initial(idempotent), before); var w' := Run(v, w, later);
      var id := w.attempts[a].input.actionId;
      && w.attempts[a].pc == w'.attempts[b].pc
      && id in w.journal.rows && id in w'.journal.rows && w.journal.rows[id] == w'.journal.rows[id]
      && w'.journal.rows[id].Terminal() && w.attempts[a].pc.answer == Decided(w.journal.rows[id])
  {
    hide JournalOk, NetworkOk, AgentsOk, SendersOk, TrafficOk, Held, PutOk, SendPending;
    ReachableInv(v, idempotent, before);
    var w := Run(v, Initial(idempotent), before);
    RunKeepsInv(v, w, later);
    var w' := Run(v, w, later);
    assert AttemptOk(w.journal, w.net, w.agents, w.attempts[a]);
    assert AttemptOk(w'.journal, w'.net, w'.agents, w'.attempts[b]);
  }

  /** A terminal row, and every version already written, is fixed for the rest of any run. */
  lemma TerminalRowsAreFixed(v: Variant, idempotent: set<string>, before: seq<Event>, later: seq<Event>, id: string)
    requires id in Run(v, Initial(idempotent), before).journal.rows
    ensures var j := Run(v, Initial(idempotent), before).journal;
      var j' := Run(v, Run(v, Initial(idempotent), before), later).journal;
      && id in j.history && id in j'.rows && id in j'.history && j.history[id] <= j'.history[id]
      && (j.rows[id].Terminal() ==> j'.rows[id] == j.rows[id] && j'.history[id] == j.history[id])
  {
    hide Version, RowOk, PacketOk, TaskOk, AcceptedOk, OneSender, OneMessage, JournaledTaskOk, AttemptOk;
    ReachableInv(v, idempotent, before);
    var w := Run(v, Initial(idempotent), before);
    RunKeepsInv(v, w, later);
    var j' := Run(v, w, later).journal;
    if w.journal.rows[id].Terminal() {
      TerminalEnds(id, w.journal.history[id], w.journal.rows[id], j'.history[id], j'.rows[id]);
    }
  }

  lemma TerminalEnds(id: string, h: seq<OutcomeRecord>, row: OutcomeRecord, h': seq<OutcomeRecord>, row': OutcomeRecord)
    requires Chain(id, h, row) && Chain(id, h', row') && h <= h' && row.Terminal()
    ensures h == h'
  {
    if |h| < |h'| {
      assert Version(id, row'.binding, |h| - 1, h'[|h| - 1]);
      assert AsyncStep(h'[|h| - 1], h'[|h|]);
      AsyncStepFacts(h'[|h| - 1], h'[|h|]);
      assert false;
    }
  }

  /** An opaque action sends at most one Message, and so has at most one effect, over its whole history of
      attempts, retries and crashes; until it sends, no request and no effect of it exist. */
  lemma OpaqueSendsOnce(v: Variant, idempotent: set<string>, events: seq<Event>, id: string)
    requires var w := Run(v, Initial(idempotent), events);
      id in w.journal.rows && w.journal.rows[id].binding.receiver.Opaque?
    ensures var w := Run(v, Initial(idempotent), events);
      && Sent(w.sent, id) <= 1
      && (forall t, u :: TaskOf(w.agents, id, t) && TaskOf(w.agents, id, u) ==> t == u)
      && (forall n, t :: Sends(w.net, n, id) ==> !TaskOf(w.agents, id, t))
      && (Sent(w.sent, id) == 0 ==> (forall n :: !Sends(w.net, n, id)) && (forall t :: !TaskOf(w.agents, id, t)))
  {
    hide JournalOk, AttemptsOk, NetworkOk, AgentsOk;
    ReachableInv(v, idempotent, events);
    var w := Run(v, Initial(idempotent), events);
    assert OneSender(w.attempts, w.sent, id) && OneMessage(w.net, w.agents, w.sent, id);
  }

  /** A contract that declares idempotent resend for an agent that does not have it sends nothing, in any run: no
      Message of such an action is ever on the wire and no Task of it ever exists. */
  lemma MisdeclaredNeverSends(v: Variant, idempotent: set<string>, events: seq<Event>, id: string)
    requires id in Run(v, Initial(idempotent), events).journal.rows
    requires var w := Run(v, Initial(idempotent), events); var b := w.journal.rows[id].binding;
      b.receiver.Participating? && b.pinnedIdentity.Some? && b.pinnedIdentity.value !in w.agents.idempotent
    ensures var w := Run(v, Initial(idempotent), events);
      (forall n :: !Sends(w.net, n, id)) && (forall t :: !TaskOf(w.agents, id, t))
  {
    hide JournalOk, AttemptsOk, SendersOk, TrafficOk, AcceptedOk;
    ReachableInv(v, idempotent, events);
    var w := Run(v, Initial(idempotent), events);
    forall n | n in w.net.inflight ensures !Sends(w.net, n, id) {
      assert PacketOk(w.journal.rows, w.agents.idempotent, w.net.inflight[n]);
    }
    forall t | t in w.agents.tasks ensures !TaskOf(w.agents, id, t) {
      assert TaskOk(w.journal.rows, w.agents, w.used, t, w.agents.tasks[t]);
    }
  }
}
