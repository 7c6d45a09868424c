/** One context for each run and agent: `context_for` of prototype/temporal-factory/src/a2a_outcome.py, over every run
    of the dispatch protocol. */
module DispatchContexts {
  import opened Prelude
  import opened Outcome
  import opened Dispatch
  import opened DispatchInvariant
  import opened DispatchRuns
  import opened DispatchTheorems

  /** No context serves two pairs of run and agent: the table's UNIQUE column. */
  ghost predicate ContextsUnique(j: Journal) {
    forall x, y :: x in j.contexts && y in j.contexts && x != y ==> j.contexts[x] != j.contexts[y]
  }

  ghost predicate ContextsUsed(j: Journal, used: set<string>) {
    forall x :: x in j.contexts ==> j.contexts[x] in used
  }

  /** The row's context is the one stored for its run and agent. */
  ghost predicate RowInContext(j: Journal, b: Binding) {
    && b.pinnedIdentity.Some? && b.contextId.Some?
    && (b.runId, b.pinnedIdentity.value) in j.contexts
    && j.contexts[(b.runId, b.pinnedIdentity.value)] == b.contextId.value
  }

  /** An attempt about to begin its row holds the context stored for its run and agent. */
  ghost predicate AttemptInContext(j: Journal, t: Attempt) {
    t.pc.Contexted? ==>
      && (t.input.runId, t.input.identity) in j.contexts
      && j.contexts[(t.input.runId, t.input.identity)] == t.pc.contextId
  }

  ghost predicate RowsInContext(j: Journal) {
    forall id :: id in j.rows ==> RowInContext(j, j.rows[id].binding)
  }

  ghost predicate InContext(w: World) {
    && ContextsUnique(w.journal) && ContextsUsed(w.journal, w.used) && RowsInContext(w.journal)
    && forall a :: a in w.attempts ==> AttemptInContext(w.journal, w.attempts[a])
  }

  ghost predicate ContextsStay(j: Journal, j': Journal) {
    forall x :: x in j.contexts ==> x in j'.contexts && j'.contexts[x] == j.contexts[x]
  }

  /** Only `context_for` writes the table, and it only adds. */
  lemma StepKeepsContexts(v: Variant, w: World, e: Event)
    ensures ContextsStay(w.journal, Step(v, w, e).journal)
    ensures !e.BindContext? ==> Step(v, w, e).journal.contexts == w.journal.contexts
    ensures w.used <= Step(v, w, e).used
  {
    hide Step;
    UsedStays(v, w, e);
    if !e.BindContext? && !e.Insert? && !e.PutUpdate? { QuietStep(v, w, e); } else { WritersKeepContexts(v, w, e); }
  }

  lemma UsedStays(v: Variant, w: World, e: Event)
    ensures w.used <= Step(v, w, e).used
  {
    hide AfterPut, AfterStale, AfterSend, AfterGet, AfterUncertainSend, Decide, PutOrRaise, Submission, Handle, Emit,
      Commit, InsertRow, BindContextRow;
  }

  lemma WritersKeepContexts(v: Variant, w: World, e: Event)
    requires e.BindContext? || e.Insert? || e.PutUpdate?
    ensures ContextsStay(w.journal, Step(v, w, e).journal)
    ensures !e.BindContext? ==> Step(v, w, e).journal.contexts == w.journal.contexts
  {
    hide AfterPut, AfterStale, Submission;
  }

  lemma DecisionsHoldNone()
    ensures forall next, after :: !PutOrRaise(next, after).Contexted?
    ensures forall input, r, created :: !Decide(input, r, created).Contexted?
    ensures forall r, reply :: !AfterSend(r, reply).Contexted?
    ensures forall input, r :: !AfterUncertainSend(input, r).Contexted?
    ensures forall r, reply, at :: !AfterGet(r, reply, at).Contexted?
    ensures forall v, next, after :: !AfterStale(v, next, after).Contexted?
    ensures forall next, after, at :: !AfterPut(next, after, at).Contexted?
  {
    hide CompletedReceipt, ValidateAsyncTask;
  }

  /** Only `context_for` moves an attempt to where it holds a context. */
  lemma OnlyBindingHolds(v: Variant, w: World, e: Event, a: nat)
    requires a in Step(v, w, e).attempts && Step(v, w, e).attempts[a].pc.Contexted? && !e.BindContext?
    ensures a in w.attempts && w.attempts[a] == Step(v, w, e).attempts[a]
  {
    hide AfterPut, AfterStale, AfterSend, AfterGet, AfterUncertainSend, Decide, PutOrRaise, Submission, Handle, Emit;
    DecisionsHoldNone();
  }

  lemma BindingKeepsContexts(w: World, a: nat, uuid: string)
    requires InContext(w) && a in w.attempts
    ensures InContext(BindContextStep(w, a, uuid))
  {
  }

  /** A new row is begun in the context its attempt holds. */
  lemma InsertedInContext(w: World, a: nat, uuid: string)
    requires InContext(w) && a in w.attempts
    ensures RowsInContext(InsertStep(w, a, uuid).journal)
  {
    hide ContextsUnique, ContextsUsed;
    var t := w.attempts[a];
    assert AttemptInContext(w.journal, t);
    if t.pc.Contexted? && Submission(t.input, uuid, t.pc.contextId).Success? {
      NewBinding(t.input, uuid, t.pc.contextId);
    }
  }

  lemma NewBinding(input: Input, uuid: string, contextId: string)
    requires Submission(input, uuid, contextId).Success?
    ensures var b := Submission(input, uuid, contextId).value.binding;
      b.runId == input.runId && b.pinnedIdentity == Some(input.identity) && b.contextId == Some(contextId)
  {
  }

  lemma OldRowsInContext(j: Journal, j': Journal)
    requires RowsInContext(j) && ContextsStay(j, j') && JournalGrows(j, j') && j'.rows.Keys == j.rows.Keys
    ensures RowsInContext(j')
  {
    forall id | id in j'.rows
      ensures RowInContext(j', j'.rows[id].binding)
    {
      assert RowInContext(j, j.rows[id].binding);
    }
  }

  lemma SameRowKeys(v: Variant, w: World, e: Event)
    requires Inv(w) && !e.Insert?
    ensures Step(v, w, e).journal.rows.Keys == w.journal.rows.Keys
  {
    hide AfterPut, AfterStale, Submission, Inv;
    if !e.BindContext? && !e.PutUpdate? { QuietStep(v, w, e); }
  }

  lemma StepKeepsInContext(v: Variant, w: World, e: Event)
    requires Inv(w) && InContext(w)
    ensures InContext(Step(v, w, e))
  {
    hide Inv, Step, ContextsUsed, RowsInContext, AttemptInContext, BindContextStep, InsertStep, ContextsUnique;
    StepKeepsContexts(v, w, e);
    StepGrows(v, w, e);
    if e.BindContext? {
      BindingStep(v, w, e);
    } else {
      var w' := Step(v, w, e);
      SameContexts(w, w');
      if e.Insert? { InsertingStep(v, w, e); } else { SameRowKeys(v, w, e); OldRowsInContext(w.journal, w'.journal); }
      forall a | a in w'.attempts ensures AttemptInContext(w'.journal, w'.attempts[a]) {
        if w'.attempts[a].pc.Contexted? {
          OnlyBindingHolds(v, w, e, a);
          HeldContextStays(w.journal, w'.journal, w.attempts[a]);
        } else {
          NoneHeld(w'.journal, w'.attempts[a]);
        }
      }
    }
  }

  lemma NoneHeld(j: Journal, t: Attempt)
    requires !t.pc.Contexted?
    ensures AttemptInContext(j, t)
  {
  }

  lemma HeldContextStays(j: Journal, j': Journal, t: Attempt)
    requires AttemptInContext(j, t) && ContextsStay(j, j')
    ensures AttemptInContext(j', t)
  {
  }

  lemma SameContexts(w: World, w': World)
    requires w'.journal.contexts == w.journal.contexts && w.used <= w'.used
    ensures ContextsUnique(w.journal) ==> ContextsUnique(w'.journal)
    ensures ContextsUsed(w.journal, w.used) ==> ContextsUsed(w'.journal, w'.used)
  {
  }

  lemma BindingStep(v: Variant, w: World, e: Event)
    requires InContext(w) && e.BindContext?
    ensures InContext(Step(v, w, e))
  {
    hide InContext, BindContextStep;
    if e.a in w.attempts { BindingKeepsContexts(w, e.a, e.uuid); }
  }

  lemma InsertingStep(v: Variant, w: World, e: Event)
    requires InContext(w) && e.Insert?
    ensures RowsInContext(Step(v, w, e).journal)
  {
    hide InsertStep, ContextsUnique, ContextsUsed, AttemptInContext;
    if e.a in w.attempts { InsertedInContext(w, e.a, e.uuid); }
  }

  lemma {:induction false} RunKeepsContexts(v: Variant, w: World, events: seq<Event>)
    requires Inv(w) && InContext(w)
    ensures InContext(Run(v, w, events)) && ContextsStay(w.journal, Run(v, w, events).journal)
    decreases |events|
  {
    hide Inv, Step, InContext;
    if events != [] {
      StepKeepsInv(v, w, events[0]);
      StepKeepsInContext(v, w, events[0]);
      StepKeepsContexts(v, w, events[0]);
      RunKeepsContexts(v, Step(v, w, events[0]), events[1..]);
    }
  }

  lemma {:induction false} RunContextsStay(v: Variant, w: World, events: seq<Event>)
    ensures ContextsStay(w.journal, Run(v, w, events).journal)
    decreases |events|
  {
    hide Step;
    if events != [] {
      StepKeepsContexts(v, w, events[0]);
      RunContextsStay(v, Step(v, w, events[0]), events[1..]);
    }
  }

  lemma NoContextsYet(idempotent: set<string>)
    ensures InContext(Initial(idempotent))
  {
  }

  /** In every run: a context once stored for a run and an agent is never changed or removed in any continuation; no two
      pairs of run and agent share a context; and the rows of two actions of one run with one agent are in one context,
      the stored one. */
  lemma OneContextPerRunAndAgent(v: Variant, idempotent: set<string>, before: seq<Event>, later: seq<Event>)
    ensures var j := Run(v, Initial(idempotent), before).journal;
      var j' := Run(v, Run(v, Initial(idempotent), before), later).journal;
      && (forall x :: x in j.contexts ==> x in j'.contexts && j'.contexts[x] == j.contexts[x])
      && (forall x, y :: x in j.contexts && y in j.contexts && x != y ==> j.contexts[x] != j.contexts[y])
      && (forall id :: id in j.rows ==> RowInContext(j, j.rows[id].binding))
      && (forall id, k :: id in j.rows && k in j.rows ==>
            var b, c := j.rows[id].binding, j.rows[k].binding;
            b.runId == c.runId && b.pinnedIdentity == c.pinnedIdentity <==> b.contextId == c.contextId)
  {
    hide Inv, Run;
    InitialInv(idempotent);
    NoContextsYet(idempotent);
    ReachableInv(v, idempotent, before);
    RunKeepsContexts(v, Initial(idempotent), before);
    var w := Run(v, Initial(idempotent), before);
    RunKeepsContexts(v, w, later);
    forall id | id in w.journal.rows ensures RowInContext(w.journal, w.journal.rows[id].binding) {}
  }
}
