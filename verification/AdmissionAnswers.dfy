/** What the admission queue answers, said over the rows before and after a call and not through the functions that
    compute the answer: `enqueue`, `release`, `admit_waiting` and `read_snapshot` of
    prototype/temporal-factory/src/admission.py on every reachable store. */
module AdmissionAnswers {
  import opened Prelude
  import opened Admission
  import opened AdmissionRuns

  ghost predicate Known(s: Store, i: nat, f: string, request: string) {
    i < |s.rows| && s.rows[i].factoryId == f && s.rows[i].requestId == request
  }

  /** The rows of a factory in one state, among the first n. */
  function RowsIn(rows: seq<Row>, n: nat, f: string, state: State): set<nat>
    requires n <= |rows|
  {
    set k | 0 <= k < n && rows[k].factoryId == f && rows[k].state == state
  }

  /** What a caller is shown of a row: its own fields and, while it waits, its place in the queue. */
  ghost predicate Shown(v: View, rows: seq<Row>, i: nat, capacity: nat)
    requires i < |rows|
  {
    && v.factoryId == rows[i].factoryId && v.requestId == rows[i].requestId && v.taskId == rows[i].taskId
    && v.state == rows[i].state && v.capacity == capacity
    && v.createdAt == rows[i].createdAt && v.admittedAt == rows[i].admittedAt
    && v.releasedAt == rows[i].releasedAt && v.releaseId == rows[i].releaseId
    && (v.state.Queued? ==> v.queuePosition == Some(|RowsIn(rows, i + 1, rows[i].factoryId, Queued)|))
    && (!v.state.Queued? ==> v.queuePosition == None)
  }

  // Counting is counting.

  lemma OneMoreRow(rows: seq<Row>, n: nat, f: string, state: State)
    requires 0 < n <= |rows|
    ensures |RowsIn(rows, n, f, state)|
      == |RowsIn(rows, n - 1, f, state)| + if rows[n - 1].factoryId == f && rows[n - 1].state == state then 1 else 0
  {
    var before := RowsIn(rows, n - 1, f, state);
    if rows[n - 1].factoryId == f && rows[n - 1].state == state {
      assert RowsIn(rows, n, f, state) == before + {n - 1};
    } else {
      assert RowsIn(rows, n, f, state) == before;
    }
  }

  lemma {:induction false} CountIsSize(rows: seq<Row>, n: nat, f: string, state: State)
    requires n <= |rows|
    ensures Count(rows[..n], f, state) == |RowsIn(rows, n, f, state)|
  {
    if n > 0 {
      CountIsSize(rows, n - 1, f, state);
      assert rows[..n][..n - 1] == rows[..n - 1];
      OneMoreRow(rows, n, f, state);
    }
  }

  lemma CountAllIsSize(rows: seq<Row>, f: string, state: State)
    ensures Count(rows, f, state) == |RowsIn(rows, |rows|, f, state)|
  {
    assert rows[..|rows|] == rows;
    CountIsSize(rows, |rows|, f, state);
  }

  lemma ViewIsShown(rows: seq<Row>, i: nat, f: string, capacity: nat)
    requires i < |rows| && rows[i].factoryId == f
    ensures Shown(ViewOf(rows, i, f, capacity), rows, i, capacity)
  {
    CountIsSize(rows, i + 1, f, Queued);
  }

  // `enqueue`.

  /** The requests and Tasks a factory has rows for. */
  ghost predicate HasRequestRow(s: Store, f: string, request: string) {
    exists i: nat :: Known(s, i, f, request)
  }

  ghost predicate HasTaskRow(s: Store, f: string, task: string) {
    exists i :: 0 <= i < |s.rows| && s.rows[i].factoryId == f && s.rows[i].taskId == task
  }

  /** Row i is the request's, and was enqueued with this Task. */
  ghost predicate SameWork(s: Store, i: nat, f: string, request: string, task: string) {
    Known(s, i, f, request) && s.rows[i].taskId == task
  }

  /** The new row: last, waiting or, if a slot is free, admitted at once. */
  ghost predicate Appended(s: Store, s': Store, f: string, request: string, task: string, now: string, later: string) {
    && f in s.capacities && s'.capacities == s.capacities && s'.receipts == s.receipts
    && |s'.rows| == |s.rows| + 1 && s'.rows[..|s.rows|] == s.rows
    && var r := s'.rows[|s.rows|];
       && r.factoryId == f && r.requestId == request && r.taskId == task && r.createdAt == now
       && r.releasedAt == None && r.releaseId == None
       && if |RowsIn(s.rows, |s.rows|, f, Admitted)| < s.capacities[f] then
            r.state.Admitted? && r.admittedAt == Some(later)
          else r.state.Queued? && r.admittedAt == None
  }

  /** What `enqueue` may answer and leave, case by case. */
  ghost predicate EnqueueTells(s: Store, f: string, request: string, task: string, now: string, later: string,
      result: Result<View>, s': Store)
  {
    && f in s.capacities
    && (Blank(request) || Blank(task) ==> result == Failure("must be non-empty text"))
    && (!Blank(request) && !Blank(task) && HasRequestRow(s, f, request) ==>
          if exists i: nat :: SameWork(s, i, f, request, task) then
            && result.Success? && s' == s
            && forall i: nat :: Known(s, i, f, request) ==> Shown(result.value, s.rows, i, s.capacities[f])
          else result == Failure("request identity reused with different Task intent"))
    && (!Blank(request) && !Blank(task) && !HasRequestRow(s, f, request) ==>
          if HasTaskRow(s, f, task) then result == Failure("Task already has a different admission identity")
          else
            && result.Success? && Appended(s, s', f, request, task, now, later)
            && Shown(result.value, s'.rows, |s.rows|, s.capacities[f]))
    && (result.Failure? ==> s' == s)
  }

  lemma KnownIsFound(s: Store, f: string, request: string)
    requires Inv(s)
    ensures HasRequestRow(s, f, request) <==> ByRequest(s.rows, f, request).Some?
    ensures forall i: nat :: Known(s, i, f, request) ==> ByRequest(s.rows, f, request) == Some(i)
    ensures forall i: nat :: Known(s, i, f, request) ==> RowOk(s, s.rows[i])
  {
    hide RowOk;
    var found := ByRequest(s.rows, f, request);
    if found.Some? { assert Known(s, found.value, f, request); }
    forall i: nat | Known(s, i, f, request) ensures found == Some(i) && RowOk(s, s.rows[i]) {
      assert HasRequest(s.rows[i], f, request);
      assert found.value < i ==> Distinct(s.rows[found.value], s.rows[i]);
    }
  }

  lemma TaskIsFound(s: Store, f: string, task: string)
    ensures HasTaskRow(s, f, task) <==> ByTask(s.rows, f, task).Some?
  {
    if HasTaskRow(s, f, task) {
      var i :| 0 <= i < |s.rows| && s.rows[i].factoryId == f && s.rows[i].taskId == task;
      assert HasTask(s.rows[i], f, task);
    }
  }

  lemma KnownAnswer(s: Store, f: string, request: string, task: string, now: string, later: string)
    requires Inv(s) && f in s.capacities && HasRequestRow(s, f, request) && !Blank(request) && !Blank(task)
    ensures var (result, s') := EnqueueOutcome(s, f, request, task, now, later);
      EnqueueTells(s, f, request, task, now, later, result, s')
  {
    hide Inv, Shown, Fill, ViewOf;
    KnownIsFound(s, f, request);
    FillKeeps(s, f, later);
    var i := ByRequest(s.rows, f, request).value;
    assert Known(s, i, f, request);
    ViewIsShown(s.rows, i, f, s.capacities[f]);
    if s.rows[i].taskId == task { assert SameWork(s, i, f, request, task); }
  }

  lemma FillKeeps(s: Store, f: string, later: string)
    requires Inv(s) && f in s.capacities
    ensures Fill(s, f, later) == s && Chosen(s.rows, f, Slots(s, f)) == []
  {
    FillDoesNothing(s, f, later);
    WaitingListIsWaiting(s.rows, f);
  }

  lemma NewAnswer(s: Store, f: string, request: string, task: string, now: string, later: string)
    requires Inv(s) && f in s.capacities && !HasRequestRow(s, f, request) && !Blank(request) && !Blank(task)
    ensures var (result, s') := EnqueueOutcome(s, f, request, task, now, later);
      EnqueueTells(s, f, request, task, now, later, result, s')
  {
    hide RowsOk, ReceiptsOk, FactoryOk, Shown, Fill, ViewOf;
    KnownIsFound(s, f, request);
    TaskIsFound(s, f, task);
    AppendedFill(s, f, NewRow(f, request, task, now), later);
    CountAllIsSize(s.rows, f, Admitted);
    var (result, s') := EnqueueOutcome(s, f, request, task, now, later);
    if result.Success? { ViewIsShown(s'.rows, |s.rows|, f, s.capacities[f]); }
  }

  /** `enqueue` in every reachable store. Blank identities and conflicting ones are refused and change nothing; a
      known request is shown its row; a new one gets the last row, admitted at once exactly when fewer rows are
      admitted than there are slots, and is shown it, with its place among the waiting ones while it waits. */
  lemma EnqueueAnswers(ops: seq<Op>, f: string, request: string, task: string, now: string, later: string,
      result: Result<View>, s': Store)
    requires f in Run(EMPTY, ops).capacities
    requires (result, s') == EnqueueOutcome(Run(EMPTY, ops), f, request, task, now, later)
    ensures EnqueueTells(Run(EMPTY, ops), f, request, task, now, later, result, s')
  {
    hide Run, Inv, HasRequestRow, EnqueueTells;
    EmptyInv();
    RunKeeps(EMPTY, ops);
    var s := Run(EMPTY, ops);
    if Blank(request) || Blank(task) { BlankAnswer(s, f, request, task, now, later); }
    else if HasRequestRow(s, f, request) { KnownAnswer(s, f, request, task, now, later); }
    else { NewAnswer(s, f, request, task, now, later); }
  }

  lemma BlankAnswer(s: Store, f: string, request: string, task: string, now: string, later: string)
    requires f in s.capacities && (Blank(request) || Blank(task))
    ensures var (result, s') := EnqueueOutcome(s, f, request, task, now, later);
      EnqueueTells(s, f, request, task, now, later, result, s')
  {
  }

  // `release`.

  /** The request holds a slot in row i. */
  ghost predicate Holds(s: Store, i: nat, f: string, request: string) {
    Known(s, i, f, request) && s.rows[i].state.Admitted?
  }

  /** Row o is the factory's oldest waiting one. */
  ghost predicate First(s: Store, o: nat, f: string) {
    && o < |s.rows| && s.rows[o].factoryId == f && s.rows[o].state.Queued?
    && forall k :: 0 <= k < o && s.rows[k].factoryId == f ==> !s.rows[k].state.Queued?
  }

  ghost predicate SomeoneWaits(s: Store, f: string) {
    exists k :: 0 <= k < |s.rows| && s.rows[k].factoryId == f && s.rows[k].state.Queued?
  }

  /** Row i was released, and row o, if any, admitted; all other rows and columns stay. */
  ghost predicate Freed(s: Store, s': Store, i: nat, o: Option<nat>, release: string, now: string, later: string)
    requires i < |s.rows|
  {
    && |s'.rows| == |s.rows| && s'.capacities == s.capacities
    && s'.rows[i].state.Released? && s'.rows[i].releasedAt == Some(now) && s'.rows[i].releaseId == Some(release)
    && s'.rows[i] == s.rows[i].(
         state := s'.rows[i].state, releasedAt := s'.rows[i].releasedAt, releaseId := s'.rows[i].releaseId)
    && (o.Some? && o.value < |s.rows| ==>
          && s'.rows[o.value].state.Admitted? && s'.rows[o.value].admittedAt == Some(later)
          && s'.rows[o.value] == s.rows[o.value].(
               state := s'.rows[o.value].state, admittedAt := s'.rows[o.value].admittedAt))
    && forall k :: 0 <= k < |s.rows| && k != i && o != Some(k) ==> s'.rows[k] == s.rows[k]
  }

  /** The answer of a release of row i: the row as released, and the one request its slot went to, if any waited. */
  ghost predicate Answered(s: Store, s': Store, i: nat, f: string, release: string, now: string, later: string,
      result: ReleaseResult)
    requires f in s.capacities
  {
    && i < |s.rows| && i < |s'.rows| && Shown(result.released, s'.rows, i, s.capacities[f])
    && if SomeoneWaits(s, f) then
         exists o: nat :: First(s, o, f) && o < |s'.rows| && Freed(s, s', i, Some(o), release, now, later)
           && |result.admitted| == 1 && Shown(result.admitted[0], s'.rows, o, s.capacities[f])
       else Freed(s, s', i, None, release, now, later) && result.admitted == []
  }

  /** The receipt a release leaves for its replays. */
  ghost predicate Receipted(s: Store, s': Store, f: string, request: string, release: string, result: ReleaseResult) {
    && (f, release) in s'.receipts && s'.receipts[(f, release)].requestId == request
    && s'.receipts[(f, release)].result == result && s'.receipts[(f, release)].fingerprint == [f, request, release]
    && s'.receipts == s.receipts[(f, release) := s'.receipts[(f, release)]]
  }

  /** What `release` may answer and leave, case by case. */
  ghost predicate ReleaseTells(s: Store, f: string, request: string, release: string, now: string, later: string,
      result: Result<ReleaseResult>, s': Store)
  {
    && f in s.capacities
    && (Blank(request) || Blank(release) ==> result == Failure("must be non-empty text"))
    && (!Blank(request) && !Blank(release) && (f, release) in s.receipts ==>
          if s.receipts[(f, release)].requestId == request then
            result == Success(s.receipts[(f, release)].result) && s' == s
          else result == Failure("release identity reused for different admission work"))
    && (!Blank(request) && !Blank(release) && (f, release) !in s.receipts ==>
          if exists i: nat :: Holds(s, i, f, request) then
            && result.Success? && Receipted(s, s', f, request, release, result.value)
            && exists i: nat :: Holds(s, i, f, request) && Answered(s, s', i, f, release, now, later, result.value)
          else result == Failure("request has no active admitted slot"))
    && (result.Failure? ==> s' == s)
  }

  lemma FirstIsOldest(s: Store, f: string)
    ensures SomeoneWaits(s, f) <==> Count(s.rows, f, Queued) > 0
    ensures SomeoneWaits(s, f) ==> First(s, Oldest(s.rows, f), f)
  {
    NoneCounted(s.rows, f, Queued);
  }

  /** The answer lists what promotion chose: the oldest waiting row, or nothing. */
  lemma OneIsChosen(s: Store, f: string, i: nat, release: string, now: string)
    requires Inv(s) && f in s.capacities && i < |s.rows| && s.rows[i].factoryId == f && s.rows[i].state.Admitted?
    ensures var freed := s.(rows := s.rows[i := AsReleased(s.rows[i], release, now)]);
      Chosen(freed.rows, f, Slots(freed, f)) ==
        if Count(s.rows, f, Queued) == 0 then [] else [Oldest(s.rows, f)]
  {
    hide RowsOk, ReceiptsOk, Oldest;
    var r := AsReleased(s.rows[i], release, now);
    var freed := s.(rows := s.rows[i := r]);
    CountUpdate(s.rows, i, r, f, Admitted);
    CountUpdate(s.rows, i, r, f, Queued);
    WaitingListIsWaiting(freed.rows, f);
    assert FactoryOk(s, f);
    if Count(s.rows, f, Queued) > 0 {
      var o := Oldest(s.rows, f);
      assert forall k :: 0 <= k < o ==> !Waiting(freed.rows[k], f);
      PositionFirst(freed.rows, f, o);
      PositionWithin(freed.rows, f, o);
    }
  }

  lemma FreshAnswer(s: Store, f: string, request: string, release: string, now: string, later: string, i: nat)
    requires Inv(s) && f in s.capacities && (f, release) !in s.receipts && Holds(s, i, f, request)
    requires !Blank(request) && !Blank(release)
    ensures var (result, s') := ReleaseOutcome(s, f, request, release, now, later);
      && result.Success? && Receipted(s, s', f, request, release, result.value)
      && Answered(s, s', i, f, release, now, later, result.value)
  {
    hide Inv, Fill, ViewOf, Shown, Chosen, Oldest, First;
    KnownIsFound(s, f, request);
    FirstIsOldest(s, f);
    FreedFillInv(s, f, i, release, now, later);
    OneIsChosen(s, f, i, release, now);
    var (result, s') := ReleaseOutcome(s, f, request, release, now, later);
    ViewIsShown(s'.rows, i, f, s.capacities[f]);
    if SomeoneWaits(s, f) {
      var o := OldestWaits(s, f);
      ViewIsShown(s'.rows, o, f, s.capacities[f]);
      assert Freed(s, s', i, Some(o), release, now, later);
    }
  }

  lemma OldestWaits(s: Store, f: string) returns (o: nat)
    requires Count(s.rows, f, Queued) > 0
    ensures o == Oldest(s.rows, f) && Waiting(s.rows[o], f)
  {
    o := Oldest(s.rows, f);
  }

  lemma FreedFillInv(s: Store, f: string, i: nat, release: string, now: string, later: string)
    requires Inv(s) && f in s.capacities && i < |s.rows| && s.rows[i].factoryId == f && s.rows[i].state.Admitted?
    ensures var rows := s.rows[i := AsReleased(s.rows[i], release, now)];
      Fill(s.(rows := rows), f, later).rows ==
        if Count(s.rows, f, Queued) == 0 then rows
        else var o := Oldest(s.rows, f); rows[o := Admit(s.rows[o], later)]
    ensures var freed := s.(rows := s.rows[i := AsReleased(s.rows[i], release, now)]);
      Fill(freed, f, later) == freed.(rows := Fill(freed, f, later).rows)
  {
    hide RowsOk, ReceiptsOk;
    FreedFill(s, f, i, release, now, later);
  }

  lemma ReceiptOfRequest(s: Store, f: string, request: string, release: string)
    requires Inv(s) && (f, release) in s.receipts
    ensures s.receipts[(f, release)].fingerprint == [f, request, release]
      <==> s.receipts[(f, release)].requestId == request
  {
    hide RowsOk, FactoryOk;
    assert ReceiptOk(s, (f, release));
  }

  /** `release` in every reachable store. It frees a slot exactly when the request holds one and the release identity
      is new; then the answer shows the request as released, and lists exactly the one request that waited longest,
      as admitted, or nobody if nobody waited; and the receipt keeps that answer for replays. Every other case is
      refused, or replayed, and changes nothing. */
  lemma ReleaseAnswers(ops: seq<Op>, f: string, request: string, release: string, now: string, later: string,
      result: Result<ReleaseResult>, s': Store)
    requires f in Run(EMPTY, ops).capacities
    requires (result, s') == ReleaseOutcome(Run(EMPTY, ops), f, request, release, now, later)
    ensures ReleaseTells(Run(EMPTY, ops), f, request, release, now, later, result, s')
  {
    hide Run, Inv, Fill, Chosen, Answered, Receipted;
    EmptyInv();
    RunKeeps(EMPTY, ops);
    var s := Run(EMPTY, ops);
    if !Blank(request) && !Blank(release) {
      if (f, release) in s.receipts {
        ReceiptOfRequest(s, f, request, release);
      } else {
        KnownIsFound(s, f, request);
        if i :| Holds(s, i, f, request) {
          FreshAnswer(s, f, request, release, now, later, i);
        } else {
          NobodyHolds(s, f, request, release, now, later);
        }
      }
    }
  }

  lemma NobodyHolds(s: Store, f: string, request: string, release: string, now: string, later: string)
    requires f in s.capacities && (f, release) !in s.receipts && !Blank(request) && !Blank(release)
    requires forall i: nat :: !Holds(s, i, f, request)
    ensures ReleaseOutcome(s, f, request, release, now, later) == (Failure("request has no active admitted slot"), s)
  {
    var found := ByRequest(s.rows, f, request);
    if found.Some? { assert !Holds(s, found.value, f, request); }
  }

  // Configuration.

  /** A factory's capacity is set once: a queue exists for a named factory that has no capacity yet, or has this one. */
  lemma ConfigureAnswers(s: Store, f: string, capacity: nat)
    ensures var (result, s') := Configure(s, f, capacity);
      && (result.Success? <==> !Blank(f) && (f in s.capacities ==> s.capacities[f] == capacity))
      && (result.Failure? ==> s' == s)
      && (result.Success? ==>
            f in s'.capacities && s'.capacities[f] == capacity && s' == s.(capacities := s'.capacities)
            && forall g :: g != f ==>
                 (g in s'.capacities <==> g in s.capacities) && (g in s.capacities ==> s'.capacities[g] == s.capacities[g]))
  {
  }

  // The readers.

  /** On every reachable store `admit_waiting` finds nobody to admit. */
  lemma AdmitWaitingAnswersNobody(ops: seq<Op>, f: string)
    requires f in Run(EMPTY, ops).capacities
    ensures var s := Run(EMPTY, ops); Chosen(s.rows, f, Slots(s, f)) == []
  {
    hide Run, Inv;
    EmptyInv();
    RunKeeps(EMPTY, ops);
    FillKeeps(Run(EMPTY, ops), f, "");
  }

  lemma ListingGrows(rows: seq<Row>, n: nat, f: string, capacity: nat)
    requires n <= |rows|
    ensures n == 0 ==> Listing(rows, n, f, capacity) == []
    ensures n > 0 ==>
      Listing(rows, n, f, capacity) == Listing(rows, n - 1, f, capacity) +
        if rows[n - 1].factoryId == f then [ViewOf(rows, n - 1, f, capacity)] else []
  {
  }

  /** The k-th view of a listing shows the k-th row of the factory. `at` gives its sequence number. */
  lemma {:induction false} ListingShows(rows: seq<Row>, n: nat, f: string, capacity: nat) returns (at: seq<nat>)
    requires n <= |rows|
    ensures |at| == |Listing(rows, n, f, capacity)|
    ensures forall k :: 0 <= k < |at| ==>
      at[k] < n && rows[at[k]].factoryId == f && Shown(Listing(rows, n, f, capacity)[k], rows, at[k], capacity)
    ensures forall j, k :: 0 <= j < k < |at| ==> at[j] < at[k]
    ensures forall i :: 0 <= i < n && rows[i].factoryId == f ==> i in at
  {
    hide Shown, ViewOf, Listing;
    ListingGrows(rows, n, f, capacity);
    if n == 0 {
      at := [];
    } else {
      at := ListingShows(rows, n - 1, f, capacity);
      if rows[n - 1].factoryId == f {
        ViewIsShown(rows, n - 1, f, capacity);
        at := at + [n - 1];
      }
    }
  }
}
