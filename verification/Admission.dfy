/** The admission queue of prototype/temporal-factory/src/admission.py: its tables, what each transaction does to
    them, and the class whose methods change them row by row. Several factories share the tables. */
module Admission {
  import opened Prelude

  datatype State = Queued | Admitted | Released

  /** A row of `admission_requests`. Its sequence number is its place in the table: rows are only appended.
      The fingerprint stands for the digest of its parts. */
  datatype Row = Row(
    factoryId: string, requestId: string, taskId: string, fingerprint: seq<string>, state: State, createdAt: string,
    admittedAt: Option<string>, releasedAt: Option<string>, releaseId: Option<string>)

  datatype View = View(
    factoryId: string, requestId: string, taskId: string, state: State, capacity: nat, queuePosition: Option<nat>,
    createdAt: string, admittedAt: Option<string>, releasedAt: Option<string>, releaseId: Option<string>)

  datatype ReleaseResult = ReleaseResult(released: View, admitted: seq<View>)

  /** A row of `admission_release_receipts`; its key is the factory and the release identity. */
  datatype ReleaseReceipt = ReleaseReceipt(requestId: string, fingerprint: seq<string>, result: ReleaseResult)

  datatype Store = Store(
    capacities: map<string, nat>, rows: seq<Row>, receipts: map<(string, string), ReleaseReceipt>)

  datatype CapacityView = CapacityView(
    factoryId: string, capacity: nat, admitted: nat, queued: nat, released: nat, available: nat)

  predicate Waiting(r: Row, f: string) { r.factoryId == f && r.state.Queued? }

  /** `SELECT COUNT(*)` of a factory's rows in one state. */
  function Count(rows: seq<Row>, f: string, state: State): nat {
    if rows == [] then 0
    else
      var last := rows[|rows| - 1];
      Count(rows[..|rows| - 1], f, state) + if last.factoryId == f && last.state == state then 1 else 0
  }

  /** How many waiting rows of the factory come no later than row i. */
  function Position(rows: seq<Row>, f: string, i: nat): nat
    requires i < |rows|
  {
    Count(rows[..i + 1], f, Queued)
  }

  /** The sequence numbers of the factory's waiting rows, oldest first. */
  function WaitingList(rows: seq<Row>, f: string): seq<nat> {
    if rows == [] then []
    else
      var n := |rows| - 1;
      WaitingList(rows[..n], f) + if Waiting(rows[n], f) then [n] else []
  }

  /** The waiting rows that `slots` free slots admit, by sequence number (`LIMIT slots`). */
  function Chosen(rows: seq<Row>, f: string, slots: int): seq<nat> {
    var waiting := WaitingList(rows, f);
    if slots <= 0 then [] else if slots < |waiting| then waiting[..slots] else waiting
  }

  function Admit(r: Row, at: string): Row { r.(state := Admitted, admittedAt := Some(at)) }

  /** The table after promotion: the waiting rows at positions 1 to `slots` are admitted, no other row changes. */
  function Promote(rows: seq<Row>, f: string, slots: int, at: string): seq<Row> {
    seq(|rows|, i requires 0 <= i < |rows| =>
      if Waiting(rows[i], f) && Position(rows, f, i) <= slots then Admit(rows[i], at) else rows[i])
  }

  function Slots(s: Store, f: string): int
    requires f in s.capacities
  {
    s.capacities[f] - Count(s.rows, f, Admitted)
  }

  function Fill(s: Store, f: string, at: string): Store
    requires f in s.capacities
  {
    s.(rows := Promote(s.rows, f, Slots(s, f), at))
  }

  predicate HasRequest(r: Row, f: string, request: string) { r.factoryId == f && r.requestId == request }

  predicate HasTask(r: Row, f: string, task: string) { r.factoryId == f && r.taskId == task }

  function ByRequest(rows: seq<Row>, f: string, request: string): Option<nat> {
    Find(rows, (r: Row) => HasRequest(r, f, request))
  }

  function ByTask(rows: seq<Row>, f: string, task: string): Option<nat> {
    Find(rows, (r: Row) => HasTask(r, f, task))
  }

  function ViewOf(rows: seq<Row>, i: nat, f: string, capacity: nat): View
    requires i < |rows|
  {
    var r := rows[i];
    View(r.factoryId, r.requestId, r.taskId, r.state, capacity,
         if r.state.Queued? then Some(Position(rows, f, i)) else None,
         r.createdAt, r.admittedAt, r.releasedAt, r.releaseId)
  }

  lemma {:induction false} WaitingListIsWaiting(rows: seq<Row>, f: string)
    ensures |WaitingList(rows, f)| == Count(rows, f, Queued)
    ensures forall k :: 0 <= k < |WaitingList(rows, f)| ==>
      && WaitingList(rows, f)[k] < |rows| && Waiting(rows[WaitingList(rows, f)[k]], f)
      && Position(rows, f, WaitingList(rows, f)[k]) == k + 1
  {
    if rows != [] {
      var n := |rows| - 1;
      WaitingListIsWaiting(rows[..n], f);
      forall i | 0 <= i < n ensures Position(rows[..n], f, i) == Position(rows, f, i) {
        assert rows[..n][..i + 1] == rows[..i + 1];
      }
      assert rows[..n + 1] == rows;
    }
  }

  function Views(rows: seq<Row>, indices: seq<nat>, f: string, capacity: nat): seq<View>
    requires forall k :: 0 <= k < |indices| ==> indices[k] < |rows|
  {
    seq(|indices|, k requires 0 <= k < |indices| => ViewOf(rows, indices[k], f, capacity))
  }

  function NewRow(f: string, request: string, task: string, now: string): Row {
    Row(f, request, task, [f, request, task], Queued, now, None, None, None)
  }

  /** What `enqueue` returns and leaves. `now` is its first reading of the clock, `later` those after. */
  function EnqueueOutcome(s: Store, f: string, request: string, task: string, now: string,
      later: string): (Result<View>, Store)
    requires f in s.capacities
  {
    if Blank(request) || Blank(task) then (Failure("must be non-empty text"), s)
    else match ByRequest(s.rows, f, request)
      case Some(i) =>
        if s.rows[i].fingerprint != [f, request, task] then
          (Failure("request identity reused with different Task intent"), s)
        else
          var s' := Fill(s, f, later);
          (Success(ViewOf(s'.rows, i, f, s.capacities[f])), s')
      case None =>
        if ByTask(s.rows, f, task).Some? then (Failure("Task already has a different admission identity"), s)
        else
          var s' := Fill(s.(rows := s.rows + [NewRow(f, request, task, now)]), f, later);
          (Success(ViewOf(s'.rows, |s.rows|, f, s.capacities[f])), s')
  }

  function AsReleased(r: Row, release: string, now: string): Row {
    r.(state := Released, releasedAt := Some(now), releaseId := Some(release))
  }

  function ReleaseReply(rows: seq<Row>, i: nat, chosen: seq<nat>, f: string, capacity: nat): ReleaseResult
    requires i < |rows| && forall k :: 0 <= k < |chosen| ==> chosen[k] < |rows|
  {
    ReleaseResult(ViewOf(rows, i, f, capacity), Views(rows, chosen, f, capacity))
  }

  lemma ChosenInRange(rows: seq<Row>, f: string, slots: int)
    ensures forall k :: 0 <= k < |Chosen(rows, f, slots)| ==> Chosen(rows, f, slots)[k] < |rows|
  {
    WaitingListIsWaiting(rows, f);
  }

  /** What `release` returns and leaves. */
  function ReleaseOutcome(s: Store, f: string, request: string, release: string, now: string, later: string)
    : (Result<ReleaseResult>, Store)
    requires f in s.capacities
  {
    var key := (f, release);
    if Blank(request) || Blank(release) then (Failure("must be non-empty text"), s)
    else if key in s.receipts then
      if s.receipts[key].fingerprint != [f, request, release] then
        (Failure("release identity reused for different admission work"), s)
      else (Success(s.receipts[key].result), s)
    else match ByRequest(s.rows, f, request)
      case None => (Failure("request has no active admitted slot"), s)
      case Some(i) =>
        if !s.rows[i].state.Admitted? then (Failure("request has no active admitted slot"), s)
        else
          var freed := s.(rows := s.rows[i := AsReleased(s.rows[i], release, now)]);
          var filled := Fill(freed, f, later);
          var chosen := Chosen(freed.rows, f, Slots(freed, f));
          ChosenInRange(freed.rows, f, Slots(freed, f));
          var result := ReleaseReply(filled.rows, i, chosen, f, s.capacities[f]);
          var receipt := ReleaseReceipt(request, [f, request, release], result);
          (Success(result), filled.(receipts := s.receipts[key := receipt]))
  }

  /** `_initialize`: a factory's capacity is set once. */
  function Configure(s: Store, f: string, capacity: nat): (Result<nat>, Store) {
    if Blank(f) then (Failure("factory_id must be non-empty text"), s)
    else if f !in s.capacities then (Success(capacity), s.(capacities := s.capacities[f := capacity]))
    else if s.capacities[f] != capacity then (Failure("configured capacity differs"), s)
    else (Success(capacity), s)
  }

  /** The shared database file. */
  class Database {
    var capacities: map<string, nat>
    var rows: seq<Row>
    var receipts: map<(string, string), ReleaseReceipt>

    constructor ()
      ensures State() == Store(map[], [], map[])
    {
      capacities, rows, receipts := map[], [], map[];
    }

    ghost function State(): Store
      reads this
    {
      Store(capacities, rows, receipts)
    }
  }

  /** Row by row, admitting the chosen rows is `Promote`. */
  ghost predicate PromotedSoFar(before: seq<Row>, rows: seq<Row>, f: string, k: nat, at: string) {
    |rows| == |before| && forall i :: 0 <= i < |before| ==>
      rows[i] == if Waiting(before[i], f) && Position(before, f, i) <= k then Admit(before[i], at) else before[i]
  }

  lemma {:induction false} PositionWithin(rows: seq<Row>, f: string, i: nat)
    requires i < |rows| && Waiting(rows[i], f)
    ensures 1 <= Position(rows, f, i) <= |WaitingList(rows, f)|
    ensures WaitingList(rows, f)[Position(rows, f, i) - 1] == i
  {
    var n := |rows| - 1;
    assert rows[..n + 1] == rows;
    WaitingListIsWaiting(rows, f);
    if i < n {
      assert rows[..n][..i + 1] == rows[..i + 1];
      PositionWithin(rows[..n], f, i);
    }
  }

  lemma PromotedAll(rows: seq<Row>, f: string, slots: int, rows': seq<Row>, at: string)
    requires PromotedSoFar(rows, rows', f, |Chosen(rows, f, slots)|, at)
    ensures rows' == Promote(rows, f, slots, at)
  {
    WaitingListIsWaiting(rows, f);
    forall i | 0 <= i < |rows| && Waiting(rows[i], f)
      ensures Position(rows, f, i) <= |Chosen(rows, f, slots)| <==> Position(rows, f, i) <= slots
    {
      PositionWithin(rows, f, i);
    }
  }

  lemma PromoteOneMore(before: seq<Row>, rows: seq<Row>, f: string, k: nat, at: string)
    requires k < |WaitingList(before, f)| && PromotedSoFar(before, rows, f, k, at)
    ensures var n := WaitingList(before, f)[k];
      n < |before| && rows[n] == before[n] && PromotedSoFar(before, rows[n := Admit(rows[n], at)], f, k + 1, at)
  {
    WaitingListIsWaiting(before, f);
    forall i | 0 <= i < |before| && Waiting(before[i], f)
      ensures Position(before, f, i) == k + 1 ==> i == WaitingList(before, f)[k]
    {
      PositionWithin(before, f, i);
    }
  }

  /** One factory's view of the database. */
  class AdmissionQueue {
    const db: Database
    const factoryId: string
    const capacity: nat

    ghost predicate Valid()
      reads this, db
    {
      factoryId in db.capacities && db.capacities[factoryId] == capacity
    }

    /** A queue object exists only after `_initialize` (admission.py:73-78, 148-156) has accepted its capacity. */
    constructor (database: Database, f: string, c: nat)
      requires Configure(database.State(), f, c).0.Success?
      modifies database
      ensures Valid() && db == database && factoryId == f && capacity == c
      ensures db.State() == Configure(old(database.State()), f, c).1
    {
      db, factoryId, capacity := database, f, c;
      new;
      if f !in db.capacities { db.capacities := db.capacities[f := c]; }
    }

    /** `_promote_available`. */
    method PromoteAvailable(later: string) returns (promoted: seq<nat>)
      requires Valid()
      modifies db`rows
      ensures Valid() && db.State() == Fill(old(db.State()), factoryId, later)
      ensures promoted == Chosen(old(db.rows), factoryId, Slots(old(db.State()), factoryId))
    {
      var active := Count(db.rows, factoryId, Admitted);
      var available := capacity - active;
      ghost var before := db.rows;
      if available <= 0 {
        PromotedAll(before, factoryId, available, db.rows, later) by { NoneChosen(before, factoryId, later); }
        return [];
      }
      var waiting := Chosen(db.rows, factoryId, available);
      promoted := [];
      NoneChosen(before, factoryId, later);
      for k := 0 to |waiting|
        invariant PromotedSoFar(before, db.rows, factoryId, k, later)
        invariant promoted == waiting[..k]
        invariant Valid()
      {
        var sequence := waiting[k];
        PromoteOneMore(before, db.rows, factoryId, k, later);
        db.rows := db.rows[sequence := db.rows[sequence].(state := Admitted, admittedAt := Some(later))];
        promoted := promoted + [sequence];
      }
      PromotedAll(before, factoryId, available, db.rows, later);
    }

    /** `enqueue`. */
    method Enqueue(request: string, task: string, now: string, later: string) returns (view: Result<View>)
      requires Valid()
      modifies db`rows
      ensures Valid() && (view, db.State()) == EnqueueOutcome(old(db.State()), factoryId, request, task, now, later)
    {
      if Blank(request) || Blank(task) { return Failure("must be non-empty text"); }
      var prior := ByRequest(db.rows, factoryId, request);
      if prior.Some? {
        if db.rows[prior.value].fingerprint != [factoryId, request, task] {
          return Failure("request identity reused with different Task intent");
        }
        var _ := PromoteAvailable(later);
        return Success(ViewOf(db.rows, prior.value, factoryId, capacity));
      }
      if ByTask(db.rows, factoryId, task).Some? {
        return Failure("Task already has a different admission identity");
      }
      var i := |db.rows|;
      db.rows := db.rows + [NewRow(factoryId, request, task, now)];
      var _ := PromoteAvailable(later);
      view := Success(ViewOf(db.rows, i, factoryId, capacity));
    }

    /** `admit_waiting`. */
    method AdmitWaiting(later: string) returns (admitted: seq<View>)
      requires Valid()
      modifies db`rows
      ensures Valid() && db.State() == Fill(old(db.State()), factoryId, later)
      ensures var chosen := Chosen(old(db.rows), factoryId, Slots(old(db.State()), factoryId));
        (forall k :: 0 <= k < |chosen| ==>
          chosen[k] < |db.rows|) && admitted == Views(db.rows, chosen, factoryId, capacity)
    {
      ghost var before := db.rows;
      var promoted := PromoteAvailable(later);
      ChosenInRange(before, factoryId, capacity - Count(before, factoryId, Admitted));
      admitted := Views(db.rows, promoted, factoryId, capacity);
    }

    /** `release`. */
    method Release(request: string, release: string, now: string, later: string) returns (result: Result<ReleaseResult>)
      requires Valid()
      modifies db`rows, db`receipts
      ensures Valid()
      ensures (result, db.State()) == ReleaseOutcome(old(db.State()), factoryId, request, release, now, later)
    {
      if Blank(request) || Blank(release) { return Failure("must be non-empty text"); }
      var key := (factoryId, release);
      if key in db.receipts {
        if db.receipts[key].fingerprint != [factoryId, request, release] {
          return Failure("release identity reused for different admission work");
        }
        return Success(db.receipts[key].result);
      }
      var held := ByRequest(db.rows, factoryId, request);
      if held.None? || !db.rows[held.value].state.Admitted? {
        return Failure("request has no active admitted slot");
      }
      var i := held.value;
      db.rows := db.rows[i := db.rows[i].(state := Released, releasedAt := Some(now), releaseId := Some(release))];
      ghost var freed := db.State();
      var promoted := PromoteAvailable(later);
      ChosenInRange(freed.rows, factoryId, Slots(freed, factoryId));
      var reply := ReleaseReply(db.rows, i, promoted, factoryId, capacity);
      db.receipts := db.receipts[key := ReleaseReceipt(request, [factoryId, request, release], reply)];
      result := Success(reply);
    }

    /** `read_snapshot`: the counts and the factory's rows in sequence order, from one pass over the rows.
        `capacity_view` returns the same counts and `list_requests` the same rows. */
    method ReadSnapshot() returns (view: Result<CapacityView>, requests: seq<View>)
      requires Valid()
      ensures requests == Listing(db.rows, |db.rows|, factoryId, capacity)
      ensures var admitted := Count(db.rows, factoryId, Admitted);
        view == if admitted > capacity then Failure("durable admitted count exceeds configured capacity")
                else Success(CapacityView(factoryId, capacity, admitted, Count(db.rows, factoryId, Queued),
                                          Count(db.rows, factoryId, Released), capacity - admitted))
    {
      hide Count, ViewOf;
      var queued, admitted, released := 0, 0, 0;
      requests := [];
      NoneCountedYet(db.rows, factoryId);
      for i := 0 to |db.rows|
        invariant queued == Count(db.rows[..i], factoryId, Queued)
        invariant admitted == Count(db.rows[..i], factoryId, Admitted)
        invariant released == Count(db.rows[..i], factoryId, Released)
        invariant requests == Listing(db.rows, i, factoryId, capacity)
      {
        CountNext(db.rows, i, factoryId, Queued);
        CountNext(db.rows, i, factoryId, Admitted);
        CountNext(db.rows, i, factoryId, Released);
        if db.rows[i].factoryId == factoryId {
          match db.rows[i].state {
            case Queued => queued := queued + 1;
            case Admitted => admitted := admitted + 1;
            case Released => released := released + 1;
          }
          requests := requests + [ViewOf(db.rows, i, factoryId, capacity)];
        }
      }
      assert db.rows[..|db.rows|] == db.rows;
      view := if admitted > capacity then Failure("durable admitted count exceeds configured capacity")
              else Success(CapacityView(factoryId, capacity, admitted, queued, released, capacity - admitted));
    }
  }

  lemma CountNext(rows: seq<Row>, i: nat, f: string, state: State)
    requires i < |rows|
    ensures Count(rows[..i + 1], f, state)
      == Count(rows[..i], f, state) + if rows[i].factoryId == f && rows[i].state == state then 1 else 0
  {
    assert rows[..i + 1][..i] == rows[..i];
  }

  lemma NoneCountedYet(rows: seq<Row>, f: string)
    ensures forall state :: Count(rows[..0], f, state) == 0
  {
  }

  lemma {:induction false} NoneChosen(rows: seq<Row>, f: string, at: string)
    ensures PromotedSoFar(rows, rows, f, 0, at)
  {
    forall i | 0 <= i < |rows| && Waiting(rows[i], f) ensures Position(rows, f, i) >= 1 {
      PositionWithin(rows, f, i);
    }
  }

  /** The views of the factory's first n rows, in sequence order. */
  function Listing(rows: seq<Row>, n: nat, f: string, capacity: nat): seq<View>
    requires n <= |rows|
  {
    if n == 0 then []
    else
      Listing(rows, n - 1, f, capacity) +
      if rows[n - 1].factoryId == f then [ViewOf(rows, n - 1, f, capacity)] else []
  }
}
