/** Whole runs of the admission queues that share one database. */
module AdmissionRuns {
  import opened Prelude
  import opened Admission

  datatype Op =
    | Configuring(f: string, capacity: nat)
    | Enqueuing(f: string, request: string, task: string, now: string, later: string)
    | Admitting(f: string, later: string)
    | Releasing(f: string, request: string, release: string, now: string, later: string)

  /** One transaction. A factory's queue exists only once its capacity is configured. */
  function Apply(s: Store, op: Op): Store {
    if op.Configuring? then Configure(s, op.f, op.capacity).1
    else if op.f !in s.capacities then s
    else match op
      case Configuring(_, _) => s
      case Enqueuing(f, request, task, now, later) => EnqueueOutcome(s, f, request, task, now, later).1
      case Admitting(f, later) => Fill(s, f, later)
      case Releasing(f, request, release, now, later) => ReleaseOutcome(s, f, request, release, now, later).1
  }

  function Run(s: Store, ops: seq<Op>): Store
    decreases |ops|
  {
    if ops == [] then s else Run(Apply(s, ops[0]), ops[1..])
  }

  const EMPTY := Store(map[], [], map[])

  // The invariant, clause by clause.

  /** What a row's state says about its other columns. */
  predicate RowOk(s: Store, r: Row) {
    && r.factoryId in s.capacities && r.fingerprint == [r.factoryId, r.requestId, r.taskId]
    && !Blank(r.requestId) && !Blank(r.taskId)
    && (r.admittedAt.Some? <==> !r.state.Queued?)
    && (r.releasedAt.Some? <==> r.state.Released?)
    && (r.releaseId.Some? <==> r.state.Released?)
    && (r.releaseId.Some? ==>
          && (r.factoryId, r.releaseId.value) in s.receipts
          && s.receipts[(r.factoryId, r.releaseId.value)].requestId == r.requestId)
  }

  /** No two rows of a factory share a request, a Task or a release: the table's UNIQUE constraints. */
  predicate Distinct(a: Row, b: Row) {
    a.factoryId == b.factoryId ==>
      a.requestId != b.requestId && a.taskId != b.taskId && (a.releaseId.Some? ==> a.releaseId != b.releaseId)
  }

  ghost predicate RowsOk(s: Store) {
    && (forall i :: 0 <= i < |s.rows| ==> RowOk(s, s.rows[i]))
    && (forall i, k :: 0 <= i < k < |s.rows| ==> Distinct(s.rows[i], s.rows[k]))
  }

  /** A receipt is that of a released row, and carries the release as it was asked for. */
  ghost predicate ReceiptOk(s: Store, key: (string, string))
    requires key in s.receipts
  {
    var receipt := s.receipts[key];
    && receipt.fingerprint == [key.0, receipt.requestId, key.1]
    && exists i ::
      0 <= i < |s.rows| && HasRequest(s.rows[i], key.0, receipt.requestId) && s.rows[i].releaseId == Some(key.1)
  }

  ghost predicate ReceiptsOk(s: Store) {
    forall key :: key in s.receipts ==> ReceiptOk(s, key)
  }

  /** At most `capacity` slots are held; nobody waits while one is free; rows leave the queue in order. */
  ghost predicate FactoryOk(s: Store, f: string)
    requires f in s.capacities
  {
    && Count(s.rows, f, Admitted) <= s.capacities[f]
    && (Count(s.rows, f, Queued) > 0 ==> Count(s.rows, f, Admitted) == s.capacities[f])
    && (forall i, k :: 0 <= i < k < |s.rows| && Waiting(s.rows[i], f) && s.rows[k].factoryId == f ==>
          s.rows[k].state.Queued?)
  }

  ghost predicate Inv(s: Store) {
    RowsOk(s) && ReceiptsOk(s) && forall f :: f in s.capacities ==> FactoryOk(s, f)
  }

  // Counting.

  lemma {:induction false} CountUpdate(rows: seq<Row>, i: nat, r: Row, f: string, state: State)
    requires i < |rows|
    ensures Count(rows[i := r], f, state)
      == Count(rows, f, state) - (if rows[i].factoryId == f && rows[i].state == state then 1 else 0)
         + (if r.factoryId == f && r.state == state then 1 else 0)
  {
    var n := |rows| - 1;
    if i == n {
      assert rows[i := r][..n] == rows[..n];
    } else {
      assert rows[i := r][..n] == rows[..n][i := r];
      CountUpdate(rows[..n], i, r, f, state);
    }
  }

  lemma CountAppend(rows: seq<Row>, r: Row, f: string, state: State)
    ensures Count(rows + [r], f, state) == Count(rows, f, state) + if r.factoryId == f && r.state == state then 1 else 0
  {
    assert (rows + [r])[..|rows|] == rows;
  }

  lemma {:induction false} NoneCounted(rows: seq<Row>, f: string, state: State)
    ensures Count(rows, f, state) == 0 <==> forall i :: 0 <= i < |rows| ==>
      !(rows[i].factoryId == f && rows[i].state == state)
  {
    if rows != [] { NoneCounted(rows[..|rows| - 1], f, state); }
  }

  /** Later waiting rows have later positions. */
  lemma {:induction false} PositionGrows(rows: seq<Row>, f: string, i: nat, k: nat)
    requires i < k < |rows|
    ensures Position(rows, f, i) <= Position(rows, f, k)
    ensures Waiting(rows[k], f) ==> Position(rows, f, i) < Position(rows, f, k)
  {
    assert rows[..k + 1][..k] == rows[..k];
    if i + 1 < k { PositionGrows(rows, f, i, k - 1); } else { assert rows[..k] == rows[..i + 1]; }
  }

  lemma PositionFirst(rows: seq<Row>, f: string, i: nat)
    requires i < |rows| && Waiting(rows[i], f) && forall k :: 0 <= k < i ==> !Waiting(rows[k], f)
    ensures Position(rows, f, i) == 1
  {
    assert rows[..i + 1][..i] == rows[..i];
    NoneCounted(rows[..i], f, Queued);
  }

  // What promotion does.

  lemma PromoteNobody(rows: seq<Row>, f: string, slots: int, at: string)
    requires slots <= 0 || forall i :: 0 <= i < |rows| ==> !Waiting(rows[i], f)
    ensures Promote(rows, f, slots, at) == rows
  {
    forall i | 0 <= i < |rows| && Waiting(rows[i], f) ensures Position(rows, f, i) >= 1 {
      PositionWithin(rows, f, i);
    }
  }

  /** A free slot goes to the oldest waiting row, here the only one it can go to. */
  lemma PromoteOldest(rows: seq<Row>, f: string, slots: int, at: string, i: nat)
    requires i < |rows| && Waiting(rows[i], f) && slots >= 1
    requires forall k :: 0 <= k < i ==> !Waiting(rows[k], f)
    requires slots == 1 || forall k :: i < k < |rows| ==> !Waiting(rows[k], f)
    ensures Promote(rows, f, slots, at) == rows[i := Admit(rows[i], at)]
  {
    PositionFirst(rows, f, i);
    forall k | i < k < |rows| && Waiting(rows[k], f) ensures Position(rows, f, k) > 1 {
      PositionGrows(rows, f, i, k);
    }
  }

  /** The oldest waiting row. */
  function Oldest(rows: seq<Row>, f: string): (i: nat)
    requires Count(rows, f, Queued) > 0
    ensures i < |rows| && Waiting(rows[i], f) && forall k :: 0 <= k < i ==> !Waiting(rows[k], f)
  {
    NoneCounted(rows, f, Queued);
    Find(rows, (r: Row) => Waiting(r, f)).value
  }

  // Each transaction keeps the invariant.

  /** Nobody waits, or no slot is free: `admit_waiting` and the promotion in a replayed `enqueue` do nothing. */
  lemma FillDoesNothing(s: Store, f: string, at: string)
    requires f in s.capacities && FactoryOk(s, f)
    ensures Fill(s, f, at) == s
  {
    NoneCounted(s.rows, f, Queued);
    PromoteNobody(s.rows, f, Slots(s, f), at);
  }

  /** A new row is appended, and admitted at once exactly when a slot is free (and so nobody waits). */
  lemma AppendedFill(s: Store, f: string, r: Row, at: string)
    requires f in s.capacities && FactoryOk(s, f) && Waiting(r, f)
    ensures Fill(s.(rows := s.rows + [r]), f, at) == s.(rows := s.rows + [if Slots(s, f) > 0 then Admit(r, at) else r])
  {
    var rows := s.rows + [r];
    CountAppend(s.rows, r, f, Admitted);
    NoneCounted(s.rows, f, Queued);
    if Slots(s, f) > 0 {
      PromoteOldest(rows, f, Slots(s, f), at, |s.rows|);
    } else {
      PromoteNobody(rows, f, Slots(s, f), at);
    }
  }

  /** A row leaves its slot; the oldest waiting row, if any, takes it. */
  lemma FreedFill(s: Store, f: string, i: nat, release: string, now: string, at: string)
    requires f in s.capacities && FactoryOk(s, f) && i < |s.rows| && s.rows[i].factoryId == f
    requires s.rows[i].state.Admitted?
    ensures var rows := s.rows[i := AsReleased(s.rows[i], release, now)];
      Fill(s.(rows := rows), f, at).rows ==
        if Count(s.rows, f, Queued) == 0 then rows
        else var o := Oldest(s.rows, f); rows[o := Admit(s.rows[o], at)]
  {
    var r := AsReleased(s.rows[i], release, now);
    var rows := s.rows[i := r];
    CountUpdate(s.rows, i, r, f, Admitted);
    NoneCounted(s.rows, f, Queued);
    if Count(s.rows, f, Queued) == 0 {
      PromoteNobody(rows, f, Slots(s.(rows := rows), f), at);
    } else {
      PromoteOldest(rows, f, 1, at, Oldest(s.rows, f));
    }
  }

  /** Rows only move forward, and keep what was written when they were queued, admitted or released. */
  predicate RowGrows(r: Row, r': Row) {
    && r'.factoryId == r.factoryId && r'.requestId == r.requestId && r'.taskId == r.taskId
    && r'.fingerprint == r.fingerprint && r'.createdAt == r.createdAt
    && (r.state.Admitted? ==> !r'.state.Queued?) && (r.state.Released? ==> r' == r)
    && (r.admittedAt.Some? ==> r'.admittedAt == r.admittedAt)
  }

  ghost predicate Grows(s: Store, s': Store) {
    && |s.rows| <= |s'.rows| && (forall i :: 0 <= i < |s.rows| ==> RowGrows(s.rows[i], s'.rows[i]))
    && s.capacities.Keys <= s'.capacities.Keys
    && (forall f :: f in s.capacities ==> s'.capacities[f] == s.capacities[f])
    && s.receipts.Keys <= s'.receipts.Keys && (forall k :: k in s.receipts ==> s'.receipts[k] == s.receipts[k])
  }

  /** A factory's transaction leaves the other factories' rows, receipts and capacity alone. */
  ghost predicate OthersUntouched(s: Store, s': Store, f: string) {
    && |s.rows| <= |s'.rows|
    && (forall i :: 0 <= i < |s.rows| && s.rows[i].factoryId != f ==> s'.rows[i] == s.rows[i])
    && (forall i :: |s.rows| <= i < |s'.rows| ==> s'.rows[i].factoryId == f)
    && (forall k :: (k in s.receipts || k in s'.receipts) && k.0 != f ==>
          k in s.receipts && k in s'.receipts && s'.receipts[k] == s.receipts[k])
    && (forall g :: g in s.capacities && g != f ==> g in s'.capacities && s'.capacities[g] == s.capacities[g])
  }

  /** The counts of a factory none of whose rows changed. */
  lemma {:induction false} CountsFollow(rows: seq<Row>, rows': seq<Row>, f: string, state: State)
    requires |rows| <= |rows'|
    requires forall i :: 0 <= i < |rows| ==>
      (rows'[i] == rows[i] || (rows[i].factoryId != f && rows'[i].factoryId != f))
    requires forall i :: |rows| <= i < |rows'| ==> rows'[i].factoryId != f
    ensures Count(rows', f, state) == Count(rows, f, state)
    decreases |rows'|
  {
    if rows' != [] {
      var n := |rows'| - 1;
      if |rows| <= n { CountsFollow(rows, rows'[..n], f, state); }
      else { CountsFollow(rows[..n], rows'[..n], f, state); }
    }
  }

  lemma OthersStayOk(s: Store, s': Store, f: string, g: string)
    requires OthersUntouched(s, s', f) && g in s.capacities && g != f && FactoryOk(s, g)
    requires forall i :: 0 <= i < |s.rows| ==> s'.rows[i].factoryId == s.rows[i].factoryId
    ensures g in s'.capacities && FactoryOk(s', g)
  {
    CountsFollow(s.rows, s'.rows, g, Admitted);
    CountsFollow(s.rows, s'.rows, g, Queued);
  }

  lemma EnqueueKeeps(s: Store, f: string, request: string, task: string, now: string, later: string)
    requires Inv(s) && f in s.capacities
    ensures var s' := EnqueueOutcome(s, f, request, task, now, later).1;
      Inv(s') && Grows(s, s') && OthersUntouched(s, s', f) && s'.receipts == s.receipts
  {
    hide Distinct, ReceiptOk, FactoryOk, Fill, ViewOf;
    var s' := EnqueueOutcome(s, f, request, task, now, later).1;
    FillDoesNothing(s, f, later);
    if s' != s {
      AppendedFill(s, f, NewRow(f, request, task, now), later);
      AppendedKeeps(s, s', f, NewRow(f, request, task, now), later);
    }
  }

  lemma AppendedKeeps(s: Store, s': Store, f: string, r: Row, at: string)
    requires Inv(s) && f in s.capacities && Waiting(r, f) && r.releaseId.None? && RowOk(s, r)
    requires ByRequest(s.rows, f, r.requestId).None? && ByTask(s.rows, f, r.taskId).None?
    requires s' == s.(rows := s.rows + [if Slots(s, f) > 0 then Admit(r, at) else r])
    ensures Inv(s') && Grows(s, s') && OthersUntouched(s, s', f)
  {
    hide RowOk, Distinct, ReceiptOk, FactoryOk;
    var r' := if Slots(s, f) > 0 then Admit(r, at) else r;
    assert RowOk(s, r') by { AdmittedIsOk(s, r, at); }
    NewRowKeeps(s, s', f, r');
    AppendedCounts(s, s', f, r');
    forall g | g in s.capacities && g != f ensures FactoryOk(s', g) { OthersStayOk(s, s', f, g); }
  }

  lemma AdmittedIsOk(s: Store, r: Row, at: string)
    requires RowOk(s, r) && r.state.Queued?
    ensures RowOk(s, Admit(r, at))
  {
  }

  lemma AppendedCounts(s: Store, s': Store, f: string, r': Row)
    requires f in s.capacities && FactoryOk(s, f) && r'.factoryId == f && s' == s.(rows := s.rows + [r'])
    requires r'.state == if Slots(s, f) > 0 then Admitted else Queued
    ensures FactoryOk(s', f)
  {
    CountAppend(s.rows, r', f, Admitted);
    CountAppend(s.rows, r', f, Queued);
    NoneCounted(s.rows, f, Queued);
  }

  lemma NewRowKeeps(s: Store, s': Store, f: string, r: Row)
    requires RowsOk(s) && ReceiptsOk(s) && s' == s.(rows := s.rows + [r]) && RowOk(s, r) && r.factoryId == f
    requires r.releaseId.None?
    requires ByRequest(s.rows, f, r.requestId).None? && ByTask(s.rows, f, r.taskId).None?
    ensures RowsOk(s') && ReceiptsOk(s')
  {
    forall i | 0 <= i < |s.rows| ensures Distinct(s.rows[i], r) {
      assert !HasRequest(s.rows[i], f, r.requestId) && !HasTask(s.rows[i], f, r.taskId);
    }
    forall key | key in s'.receipts ensures ReceiptOk(s', key) {
      assert ReceiptOk(s, key);
      var i :| 0 <= i < |s.rows| && HasRequest(s.rows[i], key.0, s.receipts[key].requestId)
        && s.rows[i].releaseId == Some(key.1);
      assert HasRequest(s'.rows[i], key.0, s.receipts[key].requestId);
    }
  }

  /** A successful release that is not a replay, spelled out. */
  lemma ReleaseShape(s: Store, f: string, request: string, release: string, now: string, later: string) returns (i: nat)
    requires Inv(s) && f in s.capacities && (f, release) !in s.receipts
    requires ReleaseOutcome(s, f, request, release, now, later).0.Success?
    ensures i < |s.rows| && HasRequest(s.rows[i], f, request) && s.rows[i].state.Admitted?
    ensures var s' := ReleaseOutcome(s, f, request, release, now, later).1;
      var rows := s.rows[i := AsReleased(s.rows[i], release, now)];
      && s'.rows == (if Count(s.rows, f, Queued) == 0 then rows
                     else var o := Oldest(s.rows, f); rows[o := Admit(s.rows[o], later)])
      && s'.capacities == s.capacities && (f, release) in s'.receipts
      && s'.receipts == s.receipts[(f, release) := s'.receipts[(f, release)]]
      && s'.receipts[(f, release)].requestId == request
      && s'.receipts[(f, release)].fingerprint == [f, request, release]
      && Success(s'.receipts[(f, release)].result) == ReleaseOutcome(s, f, request, release, now, later).0
  {
    i := ByRequest(s.rows, f, request).value;
    FreedFill(s, f, i, release, now, later);
  }

  lemma ReleaseKeeps(s: Store, f: string, request: string, release: string, now: string, later: string)
    requires Inv(s) && f in s.capacities
    ensures var s' := ReleaseOutcome(s, f, request, release, now, later).1;
      Inv(s') && Grows(s, s') && OthersUntouched(s, s', f)
  {
    hide RowOk, Distinct, ReceiptOk, FactoryOk, Fill, RowGrows;
    var outcome := ReleaseOutcome(s, f, request, release, now, later);
    var s' := outcome.1;
    if outcome.0.Success? && (f, release) !in s.receipts {
      var i := ReleaseShape(s, f, request, release, now, later);
      ReleasedRowsKeep(s, s', f, i, request, release, now, later);
      FreedRow(s, s', f, i, release, now, later);
      ReleasedReceiptsKeep(s, s', f, i, request, release);
      FreedCounts(s, s', f, i, release, now, later);
      forall g | g in s.capacities && g != f
        ensures FactoryOk(s', g)
      {
        FreedOthers(s, s', f, g, i, release, now, later);
      }
    } else {
      SameStore(s, f);
    }
  }

  lemma FreedRow(s: Store, s': Store, f: string, i: nat, release: string, now: string, later: string)
    requires i < |s.rows| && s.rows[i].state.Admitted? && Freed(s, s', f, i, release, now, later)
    ensures |s'.rows| == |s.rows| && s'.rows[i].releaseId == Some(release) && s'.rows[i].state.Released?
  {
  }

  lemma FreedOthers(s: Store, s': Store, f: string, g: string, i: nat, release: string, now: string, later: string)
    requires OthersUntouched(s, s', f) && g in s.capacities && g != f && FactoryOk(s, g)
    requires i < |s.rows| && s.rows[i].factoryId == f && Freed(s, s', f, i, release, now, later)
    ensures g in s'.capacities && FactoryOk(s', g)
  {
    hide FactoryOk;
    OthersStayOk(s, s', f, g);
  }

  ghost predicate Freed(s: Store, s': Store, f: string, i: nat, release: string, now: string, later: string)
    requires i < |s.rows|
  {
    var rows := s.rows[i := AsReleased(s.rows[i], release, now)];
    && s'.capacities == s.capacities
    && s'.rows == if Count(s.rows, f, Queued) == 0 then rows
                  else var o := Oldest(s.rows, f); rows[o := Admit(s.rows[o], later)]
  }

  lemma ReleasedRowsKeep(s: Store, s': Store, f: string, i: nat, request: string, release: string, now: string,
      later: string)
    requires Inv(s) && i < |s.rows| && HasRequest(s.rows[i], f, request) && s.rows[i].state.Admitted?
    requires Freed(s, s', f, i, release, now, later) && (f, release) !in s.receipts && (f, release) in s'.receipts
    requires s'.receipts == s.receipts[(f, release) := s'.receipts[(f, release)]]
    requires s'.receipts[(f, release)].requestId == request
    ensures RowsOk(s') && Grows(s, s') && OthersUntouched(s, s', f)
  {
    hide RowOk, Distinct, ReceiptOk, FactoryOk, RowGrows;
    forall k | 0 <= k < |s.rows|
      ensures RowOk(s', s'.rows[k]) && RowGrows(s.rows[k], s'.rows[k]) && Moved(s.rows[k], s'.rows[k], f, release)
    {
      assert RowOk(s, s.rows[k]);
      ReleasedRowKeeps(s, s', f, i, k, request, release, now, later);
    }
    forall j, k | 0 <= j < k < |s.rows| ensures Distinct(s'.rows[j], s'.rows[k]) {
      assert Distinct(s.rows[j], s.rows[k]) && RowOk(s, s.rows[j]) && RowOk(s, s.rows[k]);
      StillDistinct(s, s.rows[j], s.rows[k], s'.rows[j], s'.rows[k], f, release);
    }
  }

  /** A row that one release may have changed: it kept its release identity, or got the new one. */
  predicate Moved(r: Row, r': Row, f: string, release: string) {
    && r'.factoryId == r.factoryId && r'.requestId == r.requestId && r'.taskId == r.taskId
    && (r'.releaseId == r.releaseId || (r.factoryId == f && r.releaseId.None? && r'.releaseId == Some(release)))
  }

  lemma ReleasedRowKeeps(s: Store, s': Store, f: string, i: nat, k: nat, request: string, release: string,
      now: string, later: string)
    requires i < |s.rows| && HasRequest(s.rows[i], f, request) && s.rows[i].state.Admitted?
    requires k < |s.rows| && RowOk(s, s.rows[k])
    requires Freed(s, s', f, i, release, now, later) && (f, release) !in s.receipts && (f, release) in s'.receipts
    requires s'.receipts == s.receipts[(f, release) := s'.receipts[(f, release)]]
    requires s'.receipts[(f, release)].requestId == request
    ensures |s'.rows| == |s.rows| && RowOk(s', s'.rows[k]) && RowGrows(s.rows[k], s'.rows[k])
    ensures Moved(s.rows[k], s'.rows[k], f, release)
    ensures s.rows[k].factoryId != f ==> s'.rows[k] == s.rows[k]
    ensures k != i ==> s'.rows[k].releaseId == s.rows[k].releaseId
  {
  }

  lemma StillDistinct(s: Store, a: Row, b: Row, a': Row, b': Row, f: string, release: string)
    requires Distinct(a, b) && RowOk(s, a) && RowOk(s, b) && (f, release) !in s.receipts
    requires Moved(a, a', f, release) && Moved(b, b', f, release)
    requires (a'.releaseId == a.releaseId || b'.releaseId == b.releaseId)
    ensures Distinct(a', b')
  {
  }

  lemma ReleasedReceiptsKeep(s: Store, s': Store, f: string, i: nat, request: string, release: string)
    requires Inv(s) && i < |s.rows| && HasRequest(s.rows[i], f, request) && s.rows[i].state.Admitted?
    requires Grows(s, s') && RowsOk(s') && s'.rows[i].releaseId == Some(release)
    requires (f, release) !in s.receipts && (f, release) in s'.receipts
    requires s'.receipts == s.receipts[(f, release) := s'.receipts[(f, release)]]
    requires s'.receipts[(f, release)].requestId == request
    requires s'.receipts[(f, release)].fingerprint == [f, request, release]
    ensures ReceiptsOk(s')
  {
    forall key | key in s'.receipts ensures ReceiptOk(s', key) {
      if key == (f, release) {
        assert HasRequest(s'.rows[i], f, request);
      } else {
        assert ReceiptOk(s, key);
        var k :| 0 <= k < |s.rows| && HasRequest(s.rows[k], key.0, s.receipts[key].requestId)
          && s.rows[k].releaseId == Some(key.1);
        assert RowGrows(s.rows[k], s'.rows[k]) && RowOk(s, s.rows[k]);
        assert HasRequest(s'.rows[k], key.0, s.receipts[key].requestId);
      }
    }
  }

  lemma FreedCounts(s: Store, s': Store, f: string, i: nat, release: string, now: string, later: string)
    requires f in s.capacities && FactoryOk(s, f) && i < |s.rows| && s.rows[i].factoryId == f
    requires s.rows[i].state.Admitted?
    requires Freed(s, s', f, i, release, now, later)
    ensures FactoryOk(s', f)
  {
    var r := AsReleased(s.rows[i], release, now);
    var rows := s.rows[i := r];
    CountUpdate(s.rows, i, r, f, Admitted);
    CountUpdate(s.rows, i, r, f, Queued);
    if Count(s.rows, f, Queued) > 0 {
      var o := Oldest(s.rows, f);
      CountUpdate(rows, o, Admit(s.rows[o], later), f, Admitted);
      CountUpdate(rows, o, Admit(s.rows[o], later), f, Queued);
      assert forall k :: 0 <= k < |s.rows| && s'.rows[k].state.Queued? ==> k != o && s'.rows[k] == s.rows[k];
    } else {
      NoneCounted(s.rows, f, Queued);
      NoneCounted(rows, f, Queued);
    }
  }

  lemma ConfigureKeeps(s: Store, f: string, capacity: nat)
    requires Inv(s)
    ensures Inv(Configure(s, f, capacity).1) && Grows(s, Configure(s, f, capacity).1)
    ensures OthersUntouched(s, Configure(s, f, capacity).1, f)
  {
    hide RowOk, Distinct, ReceiptOk, FactoryOk, RowGrows;
    var s' := Configure(s, f, capacity).1;
    SameStore(s, f);
    if s' != s {
      assert f !in s.capacities;
      forall i | 0 <= i < |s.rows|
        ensures RowOk(s', s'.rows[i]) && s.rows[i].factoryId != f && RowGrows(s.rows[i], s'.rows[i])
      {
        assert RowOk(s, s.rows[i]);
        MoreFactories(s, s', s.rows[i]);
      }
      forall key | key in s'.receipts ensures ReceiptOk(s', key) {
        assert ReceiptOk(s, key);
        SameReceipt(s, s', key);
      }
      forall g | g in s'.capacities ensures FactoryOk(s', g) {
        if g == f { UnknownFactory(s', f); } else { SameFactory(s, s', g); }
      }
    }
  }

  lemma MoreFactories(s: Store, s': Store, r: Row)
    requires RowOk(s, r) && s'.receipts == s.receipts && s.capacities.Keys <= s'.capacities.Keys
    ensures RowOk(s', r) && RowGrows(r, r) && r.factoryId in s.capacities
  {
  }

  lemma SameReceipt(s: Store, s': Store, key: (string, string))
    requires key in s.receipts && ReceiptOk(s, key) && s'.rows == s.rows && s'.receipts == s.receipts
    ensures ReceiptOk(s', key)
  {
  }

  lemma SameFactory(s: Store, s': Store, g: string)
    requires g in s.capacities && FactoryOk(s, g) && s'.rows == s.rows && g in s'.capacities
    requires s'.capacities[g] == s.capacities[g]
    ensures FactoryOk(s', g)
  {
  }

  lemma UnknownFactory(s: Store, f: string)
    requires f in s.capacities && forall i :: 0 <= i < |s.rows| ==> s.rows[i].factoryId != f
    ensures FactoryOk(s, f)
  {
    NoneCounted(s.rows, f, Queued);
    NoneCounted(s.rows, f, Admitted);
  }

  /** Every transaction keeps the invariant, only moves rows forward, and leaves other factories alone. */
  lemma ApplyKeeps(s: Store, op: Op)
    requires Inv(s)
    ensures Inv(Apply(s, op)) && Grows(s, Apply(s, op)) && OthersUntouched(s, Apply(s, op), op.f)
  {
    hide Inv, Grows, OthersUntouched, EnqueueOutcome, ReleaseOutcome, Configure;
    if op.Configuring? { ConfigureKeeps(s, op.f, op.capacity); }
    else if op.f !in s.capacities { SameStore(s, op.f); }
    else if op.Enqueuing? { EnqueueKeeps(s, op.f, op.request, op.task, op.now, op.later); }
    else if op.Releasing? { ReleaseKeeps(s, op.f, op.request, op.release, op.now, op.later); }
    else { AdmittingKeeps(s, op.f, op.later); SameStore(s, op.f); }
  }

  lemma SameStore(s: Store, f: string)
    ensures Grows(s, s) && OthersUntouched(s, s, f)
  {
  }

  lemma AdmittingKeeps(s: Store, f: string, later: string)
    requires Inv(s) && f in s.capacities
    ensures Fill(s, f, later) == s
  {
    FillDoesNothing(s, f, later);
  }

  lemma GrowsComposes(s: Store, s1: Store, s2: Store)
    requires Grows(s, s1) && Grows(s1, s2)
    ensures Grows(s, s2)
  {
    forall i | 0 <= i < |s.rows| ensures RowGrows(s.rows[i], s2.rows[i]) {
      assert RowGrows(s.rows[i], s1.rows[i]) && RowGrows(s1.rows[i], s2.rows[i]);
    }
  }

  lemma {:induction false} RunKeeps(s: Store, ops: seq<Op>)
    requires Inv(s)
    ensures Inv(Run(s, ops)) && Grows(s, Run(s, ops))
    decreases |ops|
  {
    hide Inv, Grows, Apply;
    if ops == [] {
      SameStore(s, "");
    } else {
      ApplyKeeps(s, ops[0]);
      RunKeeps(Apply(s, ops[0]), ops[1..]);
      GrowsComposes(s, Apply(s, ops[0]), Run(s, ops));
    }
  }

  // The promises.

  lemma EmptyInv()
    ensures Inv(EMPTY)
  {
  }

  /** In every reachable state each factory holds at most `capacity` slots, a request waits only while all are held,
      requests leave the queue in sequence order, `admit_waiting` changes nothing, and neither reader can raise. */
  lemma CapacityAndOrder(ops: seq<Op>, f: string, at: string)
    requires f in Run(EMPTY, ops).capacities
    ensures var s := Run(EMPTY, ops);
      && Count(s.rows, f, Admitted) <= s.capacities[f]
      && (Count(s.rows, f, Queued) > 0 ==> Count(s.rows, f, Admitted) == s.capacities[f])
      && (forall i, k :: 0 <= i < k < |s.rows| && Waiting(s.rows[i], f) && s.rows[k].factoryId == f ==>
            s.rows[k].state.Queued?)
      && Fill(s, f, at) == s
  {
    EmptyInv();
    RunKeeps(EMPTY, ops);
    FillDoesNothing(Run(EMPTY, ops), f, at);
  }

  predicate ReleasedAs(r: Row, key: (string, string)) { r.factoryId == key.0 && r.releaseId == Some(key.1) }

  /** In every reachable state requests, Tasks and release identities are unique within a factory, so no UNIQUE
      constraint can fire; and released rows and release receipts correspond one to one. */
  lemma IdentitiesAreUnique(ops: seq<Op>)
    ensures var s := Run(EMPTY, ops);
      && (forall i, k :: 0 <= i < k < |s.rows| ==> Distinct(s.rows[i], s.rows[k]))
      && (forall i :: 0 <= i < |s.rows| && s.rows[i].state.Released? ==>
            s.rows[i].releaseId.Some? && (s.rows[i].factoryId, s.rows[i].releaseId.value) in s.receipts)
      && (forall key :: key in s.receipts ==>
            exists i :: 0 <= i < |s.rows| && ReleasedAs(s.rows[i], key) && s.rows[i].state.Released?)
  {
    hide FactoryOk, Distinct, Apply;
    EmptyInv();
    RunKeeps(EMPTY, ops);
    var s := Run(EMPTY, ops);
    forall key | key in s.receipts
      ensures exists i :: 0 <= i < |s.rows| && ReleasedAs(s.rows[i], key) && s.rows[i].state.Released?
    {
      assert ReceiptOk(s, key);
      var i :| 0 <= i < |s.rows| && HasRequest(s.rows[i], key.0, s.receipts[key].requestId)
        && s.rows[i].releaseId == Some(key.1);
      assert RowOk(s, s.rows[i]);
      assert ReleasedAs(s.rows[i], key);
    }
  }

  /** Replaying a successful release at any later time returns the original result and changes nothing. */
  lemma ReleaseReplays(before: seq<Op>, f: string, request: string, release: string, now: string, later: string,
      between: seq<Op>, now': string, later': string)
    requires var s := Run(EMPTY, before);
      f in s.capacities && ReleaseOutcome(s, f, request, release, now, later).0.Success?
    ensures var s := Run(EMPTY, before);
      var s1 := Run(ReleaseOutcome(s, f, request, release, now, later).1, between);
      f in s1.capacities &&
      ReleaseOutcome(s1, f, request, release, now', later')
        == (ReleaseOutcome(s, f, request, release, now, later).0, s1)
  {
    hide Inv, Run, RowGrows, Fill, ViewOf, Views;
    EmptyInv();
    RunKeeps(EMPTY, before);
    var s := Run(EMPTY, before);
    ReleaseKeeps(s, f, request, release, now, later);
    RunKeeps(ReleaseOutcome(s, f, request, release, now, later).1, between);
  }

  /** Enqueuing a journaled request again, with the same Task, changes nothing and shows the same row. */
  lemma EnqueueReplays(ops: seq<Op>, f: string, i: nat, now: string, later: string)
    requires var s := Run(EMPTY, ops); i < |s.rows| && s.rows[i].factoryId == f
    ensures var s := Run(EMPTY, ops);
      f in s.capacities &&
      EnqueueOutcome(s, f, s.rows[i].requestId, s.rows[i].taskId, now, later)
        == (Success(ViewOf(s.rows, i, f, s.capacities[f])), s)
  {
    EmptyInv();
    RunKeeps(EMPTY, ops);
    var s := Run(EMPTY, ops);
    assert RowOk(s, s.rows[i]);
    FillDoesNothing(s, f, later);
    var k := ByRequest(s.rows, f, s.rows[i].requestId);
    assert HasRequest(s.rows[i], f, s.rows[i].requestId);
    assert k.Some? && k.value <= i && (k.value < i ==> Distinct(s.rows[k.value], s.rows[i]));
  }

  // Bounded wait.

  /** A release that succeeds and is not a replay. */
  predicate FreesSlot(s: Store, op: Op, f: string) {
    && op.Releasing? && op.f == f && f in s.capacities && (f, op.release) !in s.receipts
    && ReleaseOutcome(s, f, op.request, op.release, op.now, op.later).0.Success?
  }

  function SlotsFreed(s: Store, f: string, ops: seq<Op>): nat
    decreases |ops|
  {
    if ops == [] then 0
    else (if FreesSlot(s, ops[0], f) then 1 else 0) + SlotsFreed(Apply(s, ops[0]), f, ops[1..])
  }

  /** A slot freed lowers every waiting position by one: the first is admitted. */
  lemma FreedPositions(s: Store, op: Op, f: string, i: nat)
    requires Inv(s) && FreesSlot(s, op, f) && i < |s.rows| && Waiting(s.rows[i], f)
    ensures var s' := Apply(s, op);
      && i < |s'.rows|
      && (Position(s.rows, f, i) == 1 ==> s'.rows[i].state.Admitted?)
      && (Position(s.rows, f, i) > 1 ==>
            Waiting(s'.rows[i], f) && Position(s'.rows, f, i) == Position(s.rows, f, i) - 1)
      && Position(s.rows, f, i) >= 1
  {
    hide Inv, RowOk, ReleaseOutcome, EnqueueOutcome, Configure, Fill;
    var j := ReleaseShape(s, f, op.request, op.release, op.now, op.later);
    var s' := Apply(s, op);
    var r := AsReleased(s.rows[j], op.release, op.now);
    NoneCounted(s.rows, f, Queued);
    var o := Oldest(s.rows, f);
    PositionFirst(s.rows, f, o);
    assert s'.rows == s.rows[j := r][o := Admit(s.rows[o], op.later)];
    if o < i {
      PositionGrows(s.rows, f, o, i);
      FreedPrefix(s.rows, f, i + 1, j, r, o, Admit(s.rows[o], op.later));
    }
  }

  lemma FreedPrefix(rows: seq<Row>, f: string, n: nat, j: nat, released: Row, o: nat, admitted: Row)
    requires n <= |rows| && j < |rows| && o < n && o != j && rows[j].state.Admitted? && released.state.Released?
    requires Waiting(rows[o], f) && admitted.state.Admitted?
    ensures Count(rows[j := released][o := admitted][..n], f, Queued) == Count(rows[..n], f, Queued) - 1
  {
    if j < n {
      assert rows[j := released][o := admitted][..n] == rows[..n][j := released][o := admitted];
      CountUpdate(rows[..n], j, released, f, Queued);
      CountUpdate(rows[..n][j := released], o, admitted, f, Queued);
    } else {
      assert rows[j := released][o := admitted][..n] == rows[..n][o := admitted];
      CountUpdate(rows[..n], o, admitted, f, Queued);
    }
  }

  /** Every other transaction of any factory leaves waiting positions as they are. */
  lemma KeptPositions(s: Store, op: Op, f: string, i: nat)
    requires Inv(s) && !FreesSlot(s, op, f) && i < |s.rows| && Waiting(s.rows[i], f)
    ensures var s' := Apply(s, op);
      i < |s'.rows| && Waiting(s'.rows[i], f) && Position(s'.rows, f, i) == Position(s.rows, f, i)
  {
    hide Inv, RowOk;
    ApplyKeeps(s, op);
    var s' := Apply(s, op);
    if op.f != f {
      forall k | 0 <= k <= i
        ensures s'.rows[k] == s.rows[k] || (s.rows[k].factoryId != f && s'.rows[k].factoryId != f)
      {
        assert RowGrows(s.rows[k], s'.rows[k]);
      }
      CountsFollow(s.rows[..i + 1], s'.rows[..i + 1], f, Queued);
    } else {
      OwnRowsKept(s, op, f);
      assert s'.rows[..i + 1] == s.rows[..i + 1];
    }
  }

  lemma OwnRowsKept(s: Store, op: Op, f: string)
    requires Inv(s) && !FreesSlot(s, op, f) && op.f == f
    ensures |s.rows| <= |Apply(s, op).rows| && Apply(s, op).rows[..|s.rows|] == s.rows
  {
    hide RowsOk, ReceiptsOk, FactoryOk, Fill, ViewOf, ReleaseReply, AsReleased;
    if op.f in s.capacities && !op.Configuring? {
      FillDoesNothing(s, f, op.later);
      if op.Enqueuing? { AppendedFill(s, f, NewRow(f, op.request, op.task, op.now), op.later); }
    }
  }

  lemma {:induction false} StaysOut(s: Store, ops: seq<Op>, i: nat)
    requires Inv(s) && i < |s.rows| && !s.rows[i].state.Queued?
    ensures i < |Run(s, ops).rows| && !Run(s, ops).rows[i].state.Queued?
  {
    RunKeeps(s, ops);
    assert RowGrows(s.rows[i], Run(s, ops).rows[i]);
  }

  /** The wait from any good state. */
  lemma {:induction false} WaitFrom(s: Store, ops: seq<Op>, f: string, i: nat)
    requires Inv(s) && i < |s.rows| && Waiting(s.rows[i], f)
    ensures var s' := Run(s, ops); var p := Position(s.rows, f, i); var freed := SlotsFreed(s, f, ops);
      && i < |s'.rows|
      && (freed < p ==> Waiting(s'.rows[i], f) && Position(s'.rows, f, i) == p - freed)
      && (freed >= p ==> !s'.rows[i].state.Queued?)
    decreases |ops|
  {
    hide Inv, Apply, FreesSlot;
    if ops == [] {
      PositionWithin(s.rows, f, i);
    } else {
      var s1 := Apply(s, ops[0]);
      ApplyKeeps(s, ops[0]);
      if FreesSlot(s, ops[0], f) {
        FreedPositions(s, ops[0], f, i);
        if Position(s.rows, f, i) == 1 { StaysOut(s1, ops[1..], i); } else { WaitFrom(s1, ops[1..], f, i); }
      } else {
        KeptPositions(s, ops[0], f, i);
        WaitFrom(s1, ops[1..], f, i);
      }
    }
  }

  /** Bounded wait. A request queued at position p is admitted by exactly the p-th later slot its factory frees,
      whatever enqueues, replays, failed releases, other factories and `admit_waiting` calls come between; until
      then its position is p less the slots freed. */
  lemma BoundedWait(before: seq<Op>, later: seq<Op>, f: string, i: nat)
    requires var s := Run(EMPTY, before); i < |s.rows| && Waiting(s.rows[i], f)
    ensures var s := Run(EMPTY, before); var s' := Run(s, later);
      var p := Position(s.rows, f, i); var freed := SlotsFreed(s, f, later);
      && i < |s'.rows| && s'.rows[i].requestId == s.rows[i].requestId
      && (freed < p ==> Waiting(s'.rows[i], f) && Position(s'.rows, f, i) == p - freed)
      && (freed >= p ==> !s'.rows[i].state.Queued?)
  {
    hide Run, SlotsFreed, Position;
    EmptyInv();
    RunKeeps(EMPTY, before);
    RunKeeps(Run(EMPTY, before), later);
    WaitFrom(Run(EMPTY, before), later, f, i);
    assert RowGrows(Run(EMPTY, before).rows[i], Run(Run(EMPTY, before), later).rows[i]);
  }
}
