/** When the code as written turns a lost race into an incident, exactly.

    In a run without faults a participating action ends in an incident if and only if some attempt's put of the
    Task id goes stale because the row already is the very record it was putting, and that attempt replaces the
    row while it is still that record. Attempts that follow one another never do. */
module LostRaceExactly {
  import opened Prelude
  import opened Outcome
  import opened Dispatch
  import opened DispatchInvariant
  import opened DispatchSteps
  import opened DispatchRuns
  import opened DispatchTheorems
  import opened LostRace

  const BLAME := "async-send-binding-inconsistent"

  /** The world before event `n` of a run of the code as written. */
  function At(idempotent: set<string>, events: seq<Event>, n: nat): World
    requires n <= |events|
  {
    Moment(AsWritten, idempotent, events, n)
  }

  predicate Puts(pc: Pc) { pc.Putting? || pc.Swapping? }

  /** Attempt `a` of action `id` is at the SELECT or the UPDATE of the put of a Task id. */
  predicate PutsTaskId(w: World, e: Event, a: nat, id: string) {
    && a in w.attempts && w.attempts[a].input.actionId == id && id in w.journal.rows
    && OfAttempt(e) && e.a == a
    && var pc := w.attempts[a].pc;
       ((e.PutSelect? && pc.Putting?) || (e.PutUpdate? && pc.Swapping?)) && pc.after.TaskKnown?
  }

  /** Such a put finds that the row already is what it was about to write: the race is lost to an equal. */
  predicate LosesToEqual(w: World, e: Event, a: nat, id: string) {
    PutsTaskId(w, e, a, id) && w.journal.rows[id] == w.attempts[a].pc.next
  }

  /** Such a put raises StaleOutcome, for whatever reason. */
  predicate GoesStale(w: World, e: Event, a: nat, id: string) {
    && PutsTaskId(w, e, a, id)
    && if e.PutSelect? then !Admissible(w.journal.rows[id], w.attempts[a].pc.next)
       else w.journal.rows[id] != w.attempts[a].pc.prior
  }

  /** Attempt `a` replaces the row with an incident. */
  predicate CommitsIncident(w: World, e: Event, a: nat, id: string) {
    && e.PutUpdate? && e.a == a && a in w.attempts && w.attempts[a].input.actionId == id
    && w.attempts[a].pc.Swapping? && w.attempts[a].pc.next.phase.Incident?
    && w.attempts[a].pc.next.binding.actionId == id
    && id in w.journal.rows && id in w.journal.history && w.journal.rows[id] == w.attempts[a].pc.prior
  }

  /** At event `k` attempt `a` loses to an equal record, and at event `m` it writes its incident over it. */
  predicate LostAndReplaced(idempotent: set<string>, events: seq<Event>, id: string, k: nat, m: nat, a: nat) {
    && k < m < |events|
    && LosesToEqual(At(idempotent, events, k), events[k], a, id)
    && CommitsIncident(At(idempotent, events, m), events[m], a, id)
    && At(idempotent, events, m).journal.rows[id] == At(idempotent, events, k).journal.rows[id]
  }

  lemma AtNext(idempotent: set<string>, events: seq<Event>, n: nat)
    requires n < |events|
    ensures At(idempotent, events, n + 1) == Step(AsWritten, At(idempotent, events, n), events[n])
  {
    hide Step, Moment;
    MomentNext(AsWritten, idempotent, events, n);
  }

  lemma NothingYet(idempotent: set<string>, id: string)
    ensures NoFault(AsWritten, Initial(idempotent), id)
  {
  }

  lemma AtFacts(idempotent: set<string>, events: seq<Event>, n: nat, id: string)
    requires n <= |events| && forall e :: e in events ==> FaultFree(e)
    ensures Inv(At(idempotent, events, n)) && NoFault(AsWritten, At(idempotent, events, n), id)
  {
    hide Inv, NoFault, Run, FaultFree;
    ReachableInv(AsWritten, idempotent, events[..n]);
    InitialInv(idempotent);
    NothingYet(idempotent, id);
    RunKeepsNoFault(AsWritten, Initial(idempotent), id, events[..n]);
  }

  lemma AtGrows(idempotent: set<string>, events: seq<Event>, k: nat, m: nat)
    requires k <= m <= |events|
    ensures Inv(At(idempotent, events, k))
    ensures JournalGrows(At(idempotent, events, k).journal, At(idempotent, events, m).journal)
  {
    hide Inv, Moment, JournalGrows;
    MomentsGrow(AsWritten, idempotent, events, k, m);
  }

  ghost predicate Blames(pc: Pc) { Puts(pc) && pc.next.reason == Some(BLAME) && pc.next.taskId.Some? }

  lemma ReasonsDiffer()
    ensures BLAME != "pinned-agent-verification-failed" && BLAME != "a2a-correlation-missing"
    ensures BLAME != "opaque-effect-unknown" && BLAME != "task-id-inconsistent" && BLAME != "output.missing"
    ensures BLAME != "async-artifact-inconsistent" && BLAME != "reply-binding-inconsistent"
    ensures BLAME != "async-task-terminal-without-artifact" && BLAME != "submission-outcome-unknown"
    ensures BLAME != "async-task-binding-inconsistent" && BLAME != "pinned-agent-capability-mismatch"
  {
    assert BLAME[6] == 's' && "async-task-binding-inconsistent"[6] == 't';
    assert |BLAME| == 31;
    assert |"pinned-agent-verification-failed"| == 32 && |"a2a-correlation-missing"| == 23;
  }

  lemma CompletionDoesNotBlame(r: OutcomeRecord, task: Snapshot, at: string)
    ensures !Blames(Finish(r, task, at))
  {
    ReasonsDiffer();
  }

  /** No other transition blames a Task for the binding: neither a decision, a poll nor an uncertain send. */
  lemma OthersDoNotBlame(input: Input, r: OutcomeRecord, reply: Reply, created: bool, at: string)
    ensures !Blames(Decide(input, r, created)) && !Blames(AfterGet(r, reply, at))
    ensures !Blames(AfterUncertainSend(input, r))
    ensures r.taskId.None? ==> !Blames(AfterSend(r, reply))
  {
    hide Finish, CompletedReceipt;
    ReasonsDiffer();
    if reply.TaskReply? { CompletionDoesNotBlame(r, reply.task, at); }
  }

  lemma CommitsDoNotBlame(next: OutcomeRecord, after: After, at: string)
    ensures !Blames(AfterPut(next, after, at))
  {
    hide Finish;
    ReasonsDiffer();
    if after.TaskKnown? { CompletionDoesNotBlame(next, after.task, at); }
  }

  /** What the record an attempt is putting came from. */
  ghost predicate BlameFrom(w: World, e: Event, a: nat, next: OutcomeRecord)
    requires a in w.attempts
  {
    var t := w.attempts[a];
    || (Puts(t.pc) && t.pc.next == next)
    || (GoesStale(w, e, a, t.input.actionId) && next == AsIncident(t.pc.next, BLAME))
  }

  /** What an attempt puts extends its own action's history, or is a decision that will be refused. */
  lemma PutsItsOwn(w: World, a: nat)
    requires Inv(w) && a in w.attempts && Puts(w.attempts[a].pc)
    ensures var t := w.attempts[a]; var id := t.input.actionId;
      && id in w.journal.rows && id in w.journal.history && Chain(id, w.journal.history[id], w.journal.rows[id])
      && t.pc.next.binding.actionId == id && t.pc.next.binding.receiver == t.input.mode
      && PutOk(w.journal, w.agents, t.input, t.pc.next, t.pc.after)
      && (t.pc.Swapping? ==>
            Extends(w.journal, t.pc.next) && t.pc.prior == w.journal.history[id][t.pc.next.sequence - 1])
  {
    hide Chain, AsyncStep, RowOk, PacketOk, TaskOk, AcceptedOk, OneSender, OneMessage, JournaledTaskOk, Extends;
    assert AttemptOk(w.journal, w.net, w.agents, w.attempts[a]);
  }

  lemma PutMakesBlame(w: World, a: nat, at: string, e: Event, w': World)
    requires Inv(w) && a in w.attempts && (e == PutSelect(a) || e == PutUpdate(a, at))
    requires w' == AttemptStep(AsWritten, w, e) && a in w'.attempts && Blames(w'.attempts[a].pc)
    ensures BlameFrom(w, e, a, w'.attempts[a].pc.next)
  {
    hide Inv, Finish, AfterPut, PutOk, Extends, Chain;
    var t := w.attempts[a];
    if Puts(t.pc) { PutsItsOwn(w, a); }
    if t.pc.Swapping? { CommitsDoNotBlame(t.pc.next, t.pc.after, at); }
  }

  lemma ReplyDoesNotBlame(w: World, a: nat, at: string, w': World)
    requires Inv(w) && a in w.attempts && w' == ReceiveStep(w, a, at) && a in w'.attempts
    ensures Blames(w'.attempts[a].pc) ==> w'.attempts[a].pc == w.attempts[a].pc
  {
    hide AfterSend, AfterGet, Chain, AsyncStep, RowOk, PacketOk, TaskOk, AcceptedOk, OneSender, OneMessage,
      JournaledTaskOk;
    var t := w.attempts[a];
    assert AttemptOk(w.journal, w.net, w.agents, t);
    if (t.pc.AwaitSend? || t.pc.AwaitGet?) && t.pc.request in w.net.replies {
      OthersDoNotBlame(t.input, t.pc.record, w.net.replies[t.pc.request], false, at);
    }
  }

  lemma OtherStepDoesNotBlame(w: World, e: Event, w': World)
    requires OfAttempt(e) && e.a in w.attempts && !e.PutSelect? && !e.PutUpdate? && !e.Receive?
    requires w' == AttemptStep(AsWritten, w, e) && e.a in w'.attempts
    ensures Blames(w'.attempts[e.a].pc) ==> w'.attempts[e.a].pc == w.attempts[e.a].pc
  {
    hide AfterUncertainSend, Decide, Submission, BindContextRow, Emit, InsertRow;
    var t := w.attempts[e.a];
    if e.ReadBack? {
      if t.input.actionId in w.journal.rows {
        OthersDoNotBlame(t.input, w.journal.rows[t.input.actionId], ErrorReply, t.pc.Inserted? && t.pc.created, "");
      }
    } else if e.Timeout? {
      if t.pc.AwaitSend? { OthersDoNotBlame(t.input, t.pc.record, ErrorReply, false, ""); }
    } else {
      ReasonsDiffer();
    }
  }

  lemma BlameComesFromAPut(w: World, e: Event, w': World)
    requires Inv(w) && OfAttempt(e) && e.a in w.attempts
    requires w' == AttemptStep(AsWritten, w, e) && e.a in w'.attempts && Blames(w'.attempts[e.a].pc)
    ensures BlameFrom(w, e, e.a, w'.attempts[e.a].pc.next)
  {
    hide Inv, ReceiveStep, PutSelectStep, PutUpdateStep, BindContextStep, InsertStep, ReadBackStep, IncidentStep,
      VerifiedStep,
      EmitGetStep, TimeoutStep, RereadStep, GoesStale, Honest;
    if e.PutSelect? { PutMakesBlame(w, e.a, "", e, w'); }
    else if e.PutUpdate? { PutMakesBlame(w, e.a, e.at, e, w'); }
    else if e.Receive? { ReplyDoesNotBlame(w, e.a, e.at, w'); }
    else { OtherStepDoesNotBlame(w, e, w'); }
  }

  /** Every incident a participating attempt is about to write was made by its own stale put of a Task id. */
  ghost predicate Traced(idempotent: set<string>, events: seq<Event>, n: nat, id: string)
    requires n <= |events|
  {
    var w := At(idempotent, events, n);
    forall a :: a in w.attempts && w.attempts[a].input.actionId == id && Blames(w.attempts[a].pc) ==>
      exists k :: MadeAt(idempotent, events, n, id, k, a, w.attempts[a].pc.next)
  }

  predicate MadeAt(idempotent: set<string>, events: seq<Event>, n: nat, id: string, k: nat, a: nat,
      incident: OutcomeRecord) {
    && k < n <= |events|
    && var w := At(idempotent, events, k);
    GoesStale(w, events[k], a, id) && incident == AsIncident(w.attempts[a].pc.next, BLAME)
  }

  lemma OthersStayPut(w: World, e: Event, a: nat)
    requires a in Step(AsWritten, w, e).attempts && !(OfAttempt(e) && e.a == a && a in w.attempts)
    ensures a in w.attempts ==> Step(AsWritten, w, e).attempts[a] == w.attempts[a]
    ensures a !in w.attempts ==> Step(AsWritten, w, e).attempts[a].pc == Fresh
  {
    hide AfterUncertainSend, Decide, Submission, BindContextRow, Emit, InsertRow, AfterPut, AfterSend, AfterGet,
      AfterStale;
  }

  lemma InputIsFixed(w: World, e: Event)
    requires OfAttempt(e) && e.a in w.attempts
    ensures e.a in AttemptStep(AsWritten, w, e).attempts
    ensures AttemptStep(AsWritten, w, e).attempts[e.a].input == w.attempts[e.a].input
  {
    hide AfterUncertainSend, Decide, Submission, BindContextRow, Emit, InsertRow, AfterPut, AfterSend, AfterGet,
      AfterStale;
  }

  lemma TracedStep(idempotent: set<string>, events: seq<Event>, n: nat, id: string, a: nat, w: World, w': World)
    requires 0 < n <= |events| && Traced(idempotent, events, n - 1, id)
    requires w == At(idempotent, events, n - 1) && w' == Step(AsWritten, w, events[n - 1]) && Inv(w)
    requires a in w'.attempts && w'.attempts[a].input.actionId == id && Blames(w'.attempts[a].pc)
    ensures exists k :: MadeAt(idempotent, events, n, id, k, a, w'.attempts[a].pc.next)
  {
    hide At, Inv, AttemptStep;
    var e := events[n - 1];
    if OfAttempt(e) && e.a == a && a in w.attempts {
      InputIsFixed(w, e);
      BlameComesFromAPut(w, e, w');
      if GoesStale(w, e, a, id) && w'.attempts[a].pc.next == AsIncident(w.attempts[a].pc.next, BLAME) {
        assert MadeAt(idempotent, events, n, id, n - 1, a, w'.attempts[a].pc.next);
        return;
      }
    } else {
      OthersStayPut(w, e, a);
    }
    var k :| MadeAt(idempotent, events, n - 1, id, k, a, w'.attempts[a].pc.next);
    assert MadeAt(idempotent, events, n, id, k, a, w'.attempts[a].pc.next);
  }

  lemma {:induction false} AlwaysTraced(idempotent: set<string>, events: seq<Event>, n: nat, id: string)
    requires n <= |events|
    ensures Traced(idempotent, events, n, id)
  {
    hide Inv, GoesStale, AttemptStep, Step, At, MadeAt;
    var w' := At(idempotent, events, n);
    if n == 0 {
      NobodyYet(idempotent, events);
    } else {
      var w := At(idempotent, events, n - 1);
      AlwaysTraced(idempotent, events, n - 1, id);
      AtNext(idempotent, events, n - 1);
      AtGrows(idempotent, events, n - 1, n);
      forall a | a in w'.attempts && w'.attempts[a].input.actionId == id && Blames(w'.attempts[a].pc)
        ensures exists k :: MadeAt(idempotent, events, n, id, k, a, w'.attempts[a].pc.next)
      {
        TracedStep(idempotent, events, n, id, a, w, w');
      }
    }
  }

  lemma NobodyYet(idempotent: set<string>, events: seq<Event>)
    ensures At(idempotent, events, 0) == Initial(idempotent)
  {
    FirstMoment(AsWritten, idempotent, events);
  }

  /** A row that ends in an incident was replaced by one at some event. */
  lemma {:induction false} SomeoneCommits(idempotent: set<string>, events: seq<Event>, n: nat, id: string)
    returns (m: nat, a: nat)
    requires n <= |events|
    requires id in At(idempotent, events, n).journal.rows && At(idempotent, events, n).journal.rows[id].phase.Incident?
    ensures m < n && CommitsIncident(At(idempotent, events, m), events[m], a, id)
    ensures At(idempotent, events, m).attempts[a].pc.next.binding == At(idempotent, events, n).journal.rows[id].binding
  {
    hide Inv, Step, At, CommitsIncident;
    NobodyYet(idempotent, events);
    var w := At(idempotent, events, n - 1);
    AtNext(idempotent, events, n - 1);
    AtGrows(idempotent, events, n - 1, n);
    if id in w.journal.rows && w.journal.rows[id].phase.Incident? {
      m, a := SomeoneCommits(idempotent, events, n - 1, id);
    } else {
      m := n - 1;
      a := CommitsNow(w, events[n - 1], id);
    }
  }

  lemma CommitsNow(w: World, e: Event, id: string) returns (a: nat)
    requires Inv(w) && id in Step(AsWritten, w, e).journal.rows
    requires Step(AsWritten, w, e).journal.rows[id].phase.Incident?
    requires !(id in w.journal.rows && w.journal.rows[id].phase.Incident?)
    ensures CommitsIncident(w, e, a, id)
    ensures w.attempts[a].pc.next == Step(AsWritten, w, e).journal.rows[id]
  {
    hide Inv, PutOk, Chain, Extends, AfterPut, AfterStale;
    if !e.BindContext? && !e.Insert? && !e.PutUpdate? { QuietStep(AsWritten, w, e); }
    assert e.BindContext? || e.Insert? || e.PutUpdate?;
    a := e.a;
    if e.PutUpdate? && a in w.attempts && Puts(w.attempts[a].pc) { PutsItsOwn(w, a); }
  }

  /** A put of a Task id that goes stale was overtaken: the version it was to become is already written, and if
      that version is Working it is the same record, for the action has one Task. */
  lemma StaleToEqual(w: World, e: Event, a: nat, id: string)
    requires Inv(w) && GoesStale(w, e, a, id)
    ensures var next := w.attempts[a].pc.next;
      && id in w.journal.history && 0 <= next.sequence < |w.journal.history[id]|
      && next.phase.Working? && next.binding.actionId == id
      && (w.journal.history[id][next.sequence].phase.Working? ==> w.journal.history[id][next.sequence] == next)
  {
    hide Inv, AsyncStep, TaskOf;
    var t := w.attempts[a];
    PutsItsOwn(w, a);
    var h := w.journal.history[id];
    StaleMeansOvertaken(id, h, w.journal.rows[id], t.pc.next);
    OneTaskOfAction(w, id, t.pc.next);
    OvertakenBy(id, h, w.journal.rows[id], t.pc.next);
  }

  lemma OneTaskOfAction(w: World, id: string, next: OutcomeRecord)
    requires Inv(w) && id in w.journal.history && 0 <= next.sequence < |w.journal.history[id]|
    requires next.taskId.Some? && TaskOf(w.agents, id, next.taskId.value)
    ensures var r := w.journal.history[id][next.sequence]; r.taskId.Some? ==> r.taskId == next.taskId
  {
    hide ChainsOk, RowsOk, AttemptsOk, NetworkOk, AgentsOk, SendersOk, TrafficOk;
    var r := w.journal.history[id][next.sequence];
    assert JournaledTaskOk(w.agents, id, r);
    if r.taskId.Some? {
      OneTask(w.journal.rows, w.net, w.agents, w.used, w.sent, id, r.taskId.value, next.taskId.value);
    }
  }

  /** The record that an attempt lost to is still the row when its incident replaces the row. */
  lemma StillTheRow(w: World, e: Event, w': World, e': Event, a: nat, id: string)
    requires Inv(w) && Inv(w') && JournalGrows(w.journal, w'.journal)
    requires GoesStale(w, e, a, id) && CommitsIncident(w', e', a, id)
    requires w'.attempts[a].pc.next == AsIncident(w.attempts[a].pc.next, BLAME)
    ensures w.journal.rows[id] == w.attempts[a].pc.next == w'.journal.rows[id]
  {
    hide Inv, PutOk;
    StaleToEqual(w, e, a, id);
    PutsItsOwn(w, a);
    PutsItsOwn(w', a);
    var h, h' := w.journal.history[id], w'.journal.history[id];
    var r := w.attempts[a].pc.next;
    var s := r.sequence;
    assert Version(id, w'.journal.rows[id].binding, |h'| - 1, h'[|h'| - 1]);
    assert Version(id, w'.journal.rows[id].binding, s, h'[s]);
    AsyncStepFacts(h'[s], w'.attempts[a].pc.next);
  }

  /** Exactly when the code as written meets the promise that a lost race is never itself an outcome. In a run
      without faults a participating action ends in an incident if and only if one of its attempts loses the put
      of the Task id to the very record it was putting, and later replaces that record, still the row, with an
      incident. */
  lemma LostRaceExactly(idempotent: set<string>, events: seq<Event>, id: string)
    requires forall e :: e in events ==> FaultFree(e)
    requires id in Run(AsWritten, Initial(idempotent), events).journal.rows
    requires Run(AsWritten, Initial(idempotent), events).journal.rows[id].binding.receiver.Participating?
    ensures Run(AsWritten, Initial(idempotent), events).journal.rows[id].phase.Incident?
      <==> exists k, m, a :: LostAndReplaced(idempotent, events, id, k, m, a)
  {
    hide Run;
    assert events[..|events|] == events;
    if Run(AsWritten, Initial(idempotent), events).journal.rows[id].phase.Incident? {
      var k, m, a := IncidentWasARace(idempotent, events, id);
    }
    forall k: nat, m: nat, a: nat | LostAndReplaced(idempotent, events, id, k, m, a)
      ensures Run(AsWritten, Initial(idempotent), events).journal.rows[id].phase.Incident?
    {
      RaceIsAnIncident(idempotent, events, id, m, a);
    }
  }

  lemma IncidentWasARace(idempotent: set<string>, events: seq<Event>, id: string) returns (k: nat, m: nat, a: nat)
    requires forall e :: e in events ==> FaultFree(e)
    requires id in At(idempotent, events, |events|).journal.rows
    requires At(idempotent, events, |events|).journal.rows[id].binding.receiver.Participating?
    requires At(idempotent, events, |events|).journal.rows[id].phase.Incident?
    ensures LostAndReplaced(idempotent, events, id, k, m, a)
  {
    hide At, Inv, PutOk, Chain, Extends, GoesStale, NoFault, FaultFree;
    m, a := SomeoneCommits(idempotent, events, |events|, id);
    AtFacts(idempotent, events, m, id);
    var w' := At(idempotent, events, m);
    PutsItsOwn(w', a);
    CommitIsClean(w', a, id);
    AlwaysTraced(idempotent, events, m, id);
    k :| MadeAt(idempotent, events, m, id, k, a, w'.attempts[a].pc.next);
    AtGrows(idempotent, events, k, m);
    StillTheRow(At(idempotent, events, k), events[k], w', events[m], a, id);
    StaleIsPut(At(idempotent, events, k), events[k], a, id);
  }

  lemma StaleIsPut(w: World, e: Event, a: nat, id: string)
    requires GoesStale(w, e, a, id)
    ensures PutsTaskId(w, e, a, id)
  {
  }

  lemma CommitIsClean(w: World, a: nat, id: string)
    requires NoFault(AsWritten, w, id) && a in w.attempts && w.attempts[a].input.actionId == id
    requires w.attempts[a].input.mode.Participating? && w.attempts[a].pc.Swapping?
    requires w.attempts[a].pc.next.phase.Incident?
    ensures Blames(w.attempts[a].pc)
  {
    assert AttemptClean(AsWritten, w.net, w.agents, w.attempts[a]);
  }

  lemma RaceIsAnIncident(idempotent: set<string>, events: seq<Event>, id: string, m: nat, a: nat)
    requires m < |events| && CommitsIncident(At(idempotent, events, m), events[m], a, id)
    ensures var j := At(idempotent, events, |events|).journal; id in j.rows && j.rows[id].phase.Incident?
  {
    hide Run, Inv;
    AtNext(idempotent, events, m);
    CommitIsWritten(At(idempotent, events, m), events[m], a, id);
    AtGrows(idempotent, events, m + 1, |events|);
  }

  lemma CommitIsWritten(w: World, e: Event, a: nat, id: string)
    requires CommitsIncident(w, e, a, id)
    ensures var j := Step(AsWritten, w, e).journal; id in j.rows && j.rows[id].phase.Incident?
  {
    hide AfterPut;
  }

  predicate Over(pc: Pc) { pc.Done? || pc.Crashed? }

  /** A caller's discipline: an attempt of action `id` starts only when every attempt before it has returned or
      crashed. */
  predicate OneAfterAnother(idempotent: set<string>, events: seq<Event>, id: string) {
    forall k: nat :: k < |events| ==> StartsAlone(At(idempotent, events, k), events[k], id)
  }

  predicate StartsAlone(w: World, e: Event, id: string) {
    e.Start? && e.input.actionId == id ==>
      forall a :: a in w.attempts && w.attempts[a].input.actionId == id ==> Over(w.attempts[a].pc)
  }

  /** Then at most one attempt of the action is under way, and what it knows is the row. */
  ghost predicate Solo(w: World, id: string) {
    && (forall a, b :: Live(w, a, id) && Live(w, b, id) ==> a == b)
    && (forall a :: Live(w, a, id) ==> UpToDate(w.journal, id, w.attempts[a].pc))
  }

  ghost predicate Live(w: World, a: nat, id: string) {
    a in w.attempts && w.attempts[a].input.actionId == id && !Over(w.attempts[a].pc)
  }

  ghost predicate UpToDate(j: Journal, id: string, pc: Pc) {
    match pc
    case Looping(r, _) => id in j.rows && j.rows[id] == r
    case AwaitSend(r, _, _) => id in j.rows && j.rows[id] == r
    case Polling(r) => id in j.rows && j.rows[id] == r
    case AwaitGet(r, _) => id in j.rows && j.rows[id] == r
    case Putting(next, _) => id in j.rows && next.sequence == j.rows[id].sequence + 1
    case Swapping(next, _, _) => id in j.rows && next.sequence == j.rows[id].sequence + 1
    case _ => true
  }

  /** A put by the one attempt under way does not go stale. */
  lemma SoloPutIsFresh(w: World, a: nat, id: string)
    requires Inv(w) && Solo(w, id) && Live(w, a, id) && Puts(w.attempts[a].pc)
    ensures var t := w.attempts[a];
      && id in w.journal.rows && t.pc.next.binding.actionId == id && id in w.journal.history
      && (t.pc.after.TaskKnown? ==> Admissible(w.journal.rows[id], t.pc.next))
      && (t.pc.Swapping? ==> w.journal.rows[id] == t.pc.prior)
  {
    hide Inv, AsyncStep;
    var t := w.attempts[a];
    PutsItsOwn(w, a);
    var h := w.journal.history[id];
    assert Version(id, w.journal.rows[id].binding, |h| - 1, h[|h| - 1]);
    if Extends(w.journal, t.pc.next) { StaleMeansOvertaken(id, h, w.journal.rows[id], t.pc.next); }
  }

  lemma SoloSelect(w: World, a: nat, id: string)
    requires Inv(w) && Solo(w, id) && Live(w, a, id)
    ensures var w' := PutSelectStep(AsWritten, w, a);
      w'.journal == w.journal && UpToDate(w.journal, id, w'.attempts[a].pc)
  {
    hide Inv;
    if w.attempts[a].pc.Putting? { SoloPutIsFresh(w, a, id); }
  }

  lemma SoloUpdate(w: World, a: nat, at: string, id: string)
    requires Inv(w) && Solo(w, id) && Live(w, a, id)
    ensures var w' := PutUpdateStep(AsWritten, w, a, at); UpToDate(w'.journal, id, w'.attempts[a].pc)
  {
    hide Inv;
    if w.attempts[a].pc.Swapping? { SoloPutIsFresh(w, a, id); }
  }

  lemma SoloReceive(w: World, a: nat, at: string, id: string)
    requires Solo(w, id) && Live(w, a, id)
    ensures var w' := ReceiveStep(w, a, at); w'.journal == w.journal && UpToDate(w.journal, id, w'.attempts[a].pc)
  {
    hide CompletedReceipt;
    assert UpToDate(w.journal, id, w.attempts[a].pc);
  }

  lemma SoloOther(w: World, e: Event, id: string)
    requires Solo(w, id) && OfAttempt(e) && Live(w, e.a, id) && !e.PutSelect? && !e.PutUpdate? && !e.Receive?
    requires e.a in AttemptStep(AsWritten, w, e).attempts
    ensures var w' := AttemptStep(AsWritten, w, e); UpToDate(w'.journal, id, w'.attempts[e.a].pc)
  {
    hide Submission, Emit, Honest;
    assert UpToDate(w.journal, id, w.attempts[e.a].pc);
  }

  lemma SoloStep(w: World, e: Event, id: string)
    requires Inv(w) && Solo(w, id) && OfAttempt(e) && Live(w, e.a, id) && e.a in AttemptStep(AsWritten, w, e).attempts
    ensures var w' := AttemptStep(AsWritten, w, e); UpToDate(w'.journal, id, w'.attempts[e.a].pc)
  {
    hide Inv, Solo, ReceiveStep, PutSelectStep, PutUpdateStep, BindContextStep, InsertStep, ReadBackStep,
      IncidentStep, VerifiedStep,
      EmitGetStep, TimeoutStep, RereadStep, UpToDate, Honest;
    if e.PutSelect? { SoloSelect(w, e.a, id); }
    else if e.PutUpdate? { SoloUpdate(w, e.a, e.at, id); }
    else if e.Receive? { SoloReceive(w, e.a, e.at, id); }
    else { SoloOther(w, e, id); }
  }

  /** An attempt that is over stays over and writes nothing. */
  lemma OverIsOver(w: World, e: Event)
    requires OfAttempt(e) && e.a in w.attempts && Over(w.attempts[e.a].pc)
    ensures var w' := Step(AsWritten, w, e); w'.journal == w.journal && e.a in w'.attempts && Over(w'.attempts[e.a].pc)
  {
  }

  /** Nobody writes another action's row. */
  lemma ForeignRow(w: World, e: Event, id: string)
    requires Inv(w) && id in w.journal.rows
    requires OfAttempt(e) && e.a in w.attempts ==> w.attempts[e.a].input.actionId != id
    ensures var j := Step(AsWritten, w, e).journal; id in j.rows && j.rows[id] == w.journal.rows[id]
  {
    hide Inv, PutOk, Chain, Extends, AfterPut, AfterStale;
    if !e.BindContext? && !e.Insert? && !e.PutUpdate? { QuietStep(AsWritten, w, e); }
    else if e.a in w.attempts && Puts(w.attempts[e.a].pc) { PutsItsOwn(w, e.a); }
  }

  lemma StepKeepsSolo(w: World, e: Event, id: string)
    requires Inv(w) && Solo(w, id) && StartsAlone(w, e, id)
    ensures Solo(Step(AsWritten, w, e), id)
  {
    hide Inv, AttemptStep, UpToDate;
    var w' := Step(AsWritten, w, e);
    forall a | Live(w', a, id) && a in w.attempts ensures Live(w, a, id) {
      LiveBefore(w, e, a, id);
    }
    forall a | Live(w', a, id) ensures UpToDate(w'.journal, id, w'.attempts[a].pc) {
      SoloAfter(w, e, a, id);
    }
    forall a, b | Live(w', a, id) && Live(w', b, id) ensures a == b {
      if a !in w.attempts { NewIsStarted(w, e, a); }
      if b !in w.attempts { NewIsStarted(w, e, b); }
    }
  }

  lemma NewIsStarted(w: World, e: Event, a: nat)
    requires a !in w.attempts && a in Step(AsWritten, w, e).attempts
    ensures e.Start? && e.a == a && Step(AsWritten, w, e).attempts[a] == Attempt(e.input, Fresh)
  {
    hide AfterUncertainSend, Decide, Submission, BindContextRow, Emit, InsertRow, AfterPut, AfterSend, AfterGet,
      AfterStale;
  }

  lemma LiveBefore(w: World, e: Event, a: nat, id: string)
    requires Live(Step(AsWritten, w, e), a, id) && a in w.attempts
    ensures Live(w, a, id)
  {
    hide AttemptStep, Over;
    if OfAttempt(e) && e.a == a {
      InputIsFixed(w, e);
      if Over(w.attempts[a].pc) { OverIsOver(w, e); }
    } else {
      OthersStayPut(w, e, a);
    }
  }

  lemma SoloAfter(w: World, e: Event, a: nat, id: string)
    requires Inv(w) && Solo(w, id) && Live(Step(AsWritten, w, e), a, id) && StartsAlone(w, e, id)
    ensures var w' := Step(AsWritten, w, e); UpToDate(w'.journal, id, w'.attempts[a].pc)
  {
    hide Inv, AttemptStep;
    var w' := Step(AsWritten, w, e);
    if a !in w.attempts {
      NewIsStarted(w, e, a);
    } else {
      LiveBefore(w, e, a, id);
      if OfAttempt(e) && e.a == a {
        SoloStep(w, e, id);
      } else {
        OthersStayPut(w, e, a);
        if id in w.journal.rows { RowKept(w, e, a, id); }
      }
    }
  }

  /** While one attempt of the action is under way and does not step, the row stays as it is. */
  lemma RowKept(w: World, e: Event, a: nat, id: string)
    requires Inv(w) && Solo(w, id) && Live(w, a, id) && !(OfAttempt(e) && e.a == a) && id in w.journal.rows
    ensures var j := Step(AsWritten, w, e).journal; id in j.rows && j.rows[id] == w.journal.rows[id]
  {
    hide Inv, AttemptStep, UpToDate, Over;
    if OfAttempt(e) && e.a in w.attempts && w.attempts[e.a].input.actionId == id {
      assert !Live(w, e.a, id);
      OverIsOver(w, e);
    } else {
      ForeignRow(w, e, id);
    }
  }

  lemma {:induction false} AlwaysSolo(idempotent: set<string>, events: seq<Event>, n: nat, id: string)
    requires n <= |events| && OneAfterAnother(idempotent, events, id)
    ensures Solo(At(idempotent, events, n), id)
  {
    hide Inv, Step, Solo, At, StartsAlone;
    NobodyYet(idempotent, events);
    if n == 0 {
      NobodyIsLive(idempotent, id);
    } else {
      AlwaysSolo(idempotent, events, n - 1, id);
      AtNext(idempotent, events, n - 1);
      AtGrows(idempotent, events, n - 1, n);
      StepKeepsSolo(At(idempotent, events, n - 1), events[n - 1], id);
    }
  }

  lemma NobodyIsLive(idempotent: set<string>, id: string)
    ensures Solo(Initial(idempotent), id)
  {
  }

  /** A condition a caller can keep: when attempts of an action follow one another, and nothing else goes wrong,
      the code as written never ends the participating action in an incident. */
  lemma SequentialAttemptsAreSafe(idempotent: set<string>, events: seq<Event>, id: string)
    requires (forall e :: e in events ==> FaultFree(e)) && OneAfterAnother(idempotent, events, id)
    requires id in Run(AsWritten, Initial(idempotent), events).journal.rows
    requires Run(AsWritten, Initial(idempotent), events).journal.rows[id].binding.receiver.Participating?
    ensures !Run(AsWritten, Initial(idempotent), events).journal.rows[id].phase.Incident?
  {
    hide Inv, At, Solo, CommitsIncident;
    LostRaceExactly(idempotent, events, id);
    forall k: nat, m: nat, a: nat | LostAndReplaced(idempotent, events, id, k, m, a) ensures false {
      AlwaysSolo(idempotent, events, k, id);
      AtGrows(idempotent, events, k, m);
      SoloNeverLoses(At(idempotent, events, k), events[k], a, id);
    }
  }

  lemma SoloNeverLoses(w: World, e: Event, a: nat, id: string)
    requires Inv(w) && Solo(w, id)
    ensures !LosesToEqual(w, e, a, id)
  {
    hide Inv;
    if LosesToEqual(w, e, a, id) { SoloPutIsFresh(w, a, id); }
  }
}
