/** The observation facts projected from an admission queue:
    prototype/temporal-factory/src/admission_observation.py. */
module AdmissionObservation {
  import opened Prelude
  import opened Admission
  import opened AdmissionRuns

  datatype Fact = Fact(
    sourceId: string, factoryId: string, runId: string, taskId: string, contextId: string, time: string,
    admissionId: string, state: State, capacityLimit: nat)

  datatype Observation = Observation(records: seq<Fact>, capacityLimit: nat, active: nat, queued: nat)

  /** What the caller supplies: a Task's run and context (None: LookupError), and which strings
      `datetime.fromisoformat` reads as times with a zone. */
  datatype Lookup = Lookup(binding: string -> Option<(string, string)>, isTime: string -> bool)

  const MAX_CAPACITY := 0x7fff_ffff_ffff_ffff

  predicate Alphanumeric(c: char) { '0' <= c <= '9' || 'A' <= c <= 'Z' || 'a' <= c <= 'z' }

  predicate Identifier(s: string) {
    && 1 <= |s| <= 256 && Alphanumeric(s[0])
    && forall k :: 0 < k < |s| ==> Alphanumeric(s[k]) || s[k] in "._:/@+-"
  }

  predicate WriterTime(t: Option<string>, lookup: Lookup) {
    t.Some? && 1 <= |t.value| <= 64 && lookup.isTime(t.value)
  }

  function StateName(state: State): string {
    match state case Queued => "queued" case Admitted => "admitted" case Released => "released"
  }

  function SourceId(requestId: string, state: State): string {
    "admission:" + (Decimal(|requestId|) + (":" + (requestId + (":" + StateName(state)))))
  }

  /** The transitions a row proves: a released row still proves its admission. */
  function Transitions(state: State): seq<State> {
    match state case Queued => [Queued] case Admitted => [Admitted] case Released => [Admitted, Released]
  }

  function TimeOf(v: View, state: State): Option<string> {
    match state case Queued => Some(v.createdAt) case Admitted => v.admittedAt case Released => v.releasedAt
  }

  /** The checks of one row, before its transitions: its run and context, or why it is refused. */
  function RowBinding(v: View, f: string, limit: nat, lookup: Lookup): Result<(string, string)> {
    if v.factoryId != f then Failure("a request for a different factory")
    else if !Identifier(v.requestId) then Failure("invalid admission request_id")
    else if !Identifier(v.taskId) then Failure("invalid admission task_id")
    else if v.capacity > MAX_CAPACITY then Failure("invalid admission row capacity")
    else if v.capacity != limit then Failure("request capacity differs from the current factory capacity")
    else match lookup.binding(v.taskId)
      case None => Failure("AdmissionQueue Task has no Runtime binding")
      case Some(bound) =>
        if !Identifier(bound.0) then Failure("invalid admission bound run_id")
        else if !Identifier(bound.1) then Failure("invalid admission bound context_id")
        else Success(bound)
  }

  function RecordOf(v: View, state: State, bound: (string, string), time: string): Fact {
    Fact(SourceId(v.requestId, state), v.factoryId, bound.0, v.taskId, bound.1, time, v.requestId, state, v.capacity)
  }

  /** The records of a row's first n transitions. */
  function StepRecords(v: View, n: nat, bound: (string, string), lookup: Lookup): Result<seq<Fact>>
    requires n <= |Transitions(v.state)|
  {
    if n == 0 then Success([])
    else
      var state := Transitions(v.state)[n - 1];
      match StepRecords(v, n - 1, bound, lookup)
      case Failure(error) => Failure(error)
      case Success(records) =>
        if !WriterTime(TimeOf(v, state), lookup) then Failure("invalid admission time")
        else Success(records + [RecordOf(v, state, bound, TimeOf(v, state).value)])
  }

  function RowRecords(v: View, f: string, limit: nat, lookup: Lookup): Result<seq<Fact>> {
    match RowBinding(v, f, limit, lookup)
    case Failure(error) => Failure(error)
    case Success(bound) => StepRecords(v, |Transitions(v.state)|, bound, lookup)
  }

  /** The records of the first n rows, or the first refusal. */
  function Records(rows: seq<View>, n: nat, f: string, limit: nat, lookup: Lookup): Result<seq<Fact>>
    requires n <= |rows|
  {
    if n == 0 then Success([])
    else match Records(rows, n - 1, f, limit, lookup)
      case Failure(error) => Failure(error)
      case Success(records) =>
        match RowRecords(rows[n - 1], f, limit, lookup)
        case Failure(error) => Failure(error)
        case Success(more) => Success(records + more)
  }

  lemma {:induction false} RefusalsStay(rows: seq<View>, n: nat, m: nat, f: string, limit: nat, lookup: Lookup)
    requires n <= m <= |rows| && Records(rows, n, f, limit, lookup).Failure?
    ensures Records(rows, m, f, limit, lookup) == Records(rows, n, f, limit, lookup)
  {
    if n < m { RefusalsStay(rows, n, m - 1, f, limit, lookup); }
  }

  predicate CapacityAgrees(f: string, c: CapacityView) {
    && Identifier(f) && c.factoryId == f && c.capacity <= MAX_CAPACITY && c.queued <= MAX_CAPACITY
    && c.admitted <= c.capacity && c.available == c.capacity - c.admitted
  }

  /** One row of the projection: its checks, then its transitions. */
  method ProjectRow(row: View, f: string, limit: nat, lookup: Lookup) returns (result: Result<seq<Fact>>)
    ensures result == RowRecords(row, f, limit, lookup)
  {
    hide Identifier, SourceId;
    var bound := RowBinding(row, f, limit, lookup);
    if bound.Failure? { return Failure(bound.error); }
    var steps := Transitions(row.state);
    var records := [];
    for k := 0 to |steps|
      invariant StepRecords(row, k, bound.value, lookup) == Success(records)
    {
      var time := TimeOf(row, steps[k]);
      if !WriterTime(time, lookup) {
        assert StepRecords(row, k + 1, bound.value, lookup).Failure?;
        StepRefusalStays(row, k + 1, bound.value, lookup);
        return Failure("invalid admission time");
      }
      records := records + [RecordOf(row, steps[k], bound.value, time.value)];
    }
    result := Success(records);
  }

  lemma StepRefusalStays(v: View, n: nat, bound: (string, string), lookup: Lookup)
    requires n <= |Transitions(v.state)| && StepRecords(v, n, bound, lookup).Failure?
    ensures StepRecords(v, |Transitions(v.state)|, bound, lookup) == Failure("invalid admission time")
  {
    hide WriterTime;
  }

  /** `project_admission_observation`, over what the queue's two readers returned. */
  method Project(f: string, capacity: CapacityView, rows: seq<View>,
      lookup: Lookup) returns (result: Result<Observation>)
    ensures result.Success? <==>
      CapacityAgrees(f, capacity) && Records(rows, |rows|, f, capacity.capacity, lookup).Success?
    ensures result.Success? ==>
      result.value == Observation(Records(rows, |rows|, f, capacity.capacity, lookup).value,
                                  capacity.capacity, capacity.admitted, capacity.queued)
  {
    hide Identifier, RowRecords;
    if !Identifier(f) { return Failure("invalid admission factory_id"); }
    if capacity.factoryId != f { return Failure("a capacity view for a different factory"); }
    if capacity.capacity > MAX_CAPACITY || capacity.admitted > MAX_CAPACITY || capacity.queued > MAX_CAPACITY {
      return Failure("invalid admission capacity");
    }
    if capacity.admitted > capacity.capacity { return Failure("admitted count exceeds configured capacity"); }
    if capacity.available > MAX_CAPACITY || capacity.available != capacity.capacity - capacity.admitted {
      return Failure("capacity view counts are inconsistent");
    }
    var records := [];
    for i := 0 to |rows|
      invariant Records(rows, i, f, capacity.capacity, lookup) == Success(records)
    {
      var more := ProjectRow(rows[i], f, capacity.capacity, lookup);
      if more.Failure? {
        RefusalsStay(rows, i + 1, |rows|, f, capacity.capacity, lookup);
        return Failure(more.error);
      }
      records := records + more.value;
    }
    result := Success(Observation(records, capacity.capacity, capacity.admitted, capacity.queued));
  }

  /** `record` is that of one of the transitions row v proves, and the row passes every check. */
  ghost predicate Proves(v: View, f: string, limit: nat, lookup: Lookup, record: Fact) {
    && RowBinding(v, f, limit, lookup).Success? && record.state in Transitions(v.state) && TimeOf(v, record.state).Some?
    && record == RecordOf(v, record.state, RowBinding(v, f, limit, lookup).value, TimeOf(v, record.state).value)
  }

  lemma RowRecordsProve(v: View, f: string, limit: nat, lookup: Lookup, record: Fact)
    requires RowRecords(v, f, limit, lookup).Success?
    ensures record in RowRecords(v, f, limit, lookup).value <==> Proves(v, f, limit, lookup, record)
  {
    hide SourceId, RowBinding;
    var bound := RowBinding(v, f, limit, lookup).value;
    var empty: seq<Fact> := [];
    assert StepRecords(v, 0, bound, lookup) == Success(empty);
    assert StepRecords(v, 1, bound, lookup).Success?;
  }

  lemma {:induction false} RecordsProved(rows: seq<View>, n: nat, f: string, limit: nat, lookup: Lookup, record: Fact)
    returns (i: nat)
    requires n <= |rows| && Records(rows, n, f, limit, lookup).Success?
    requires record in Records(rows, n, f, limit, lookup).value
    ensures i < n && Proves(rows[i], f, limit, lookup, record)
  {
    hide Proves, RowRecords;
    RowRecordsProve(rows[n - 1], f, limit, lookup, record);
    if record in RowRecords(rows[n - 1], f, limit, lookup).value { i := n - 1; }
    else { i := RecordsProved(rows, n - 1, f, limit, lookup, record); }
  }

  lemma {:induction false} ProvedRecorded(rows: seq<View>, n: nat, f: string, limit: nat, lookup: Lookup, i: nat,
      record: Fact)
    requires n <= |rows| && Records(rows, n, f, limit, lookup).Success? && i < n
    requires Proves(rows[i], f, limit, lookup, record)
    ensures record in Records(rows, n, f, limit, lookup).value
  {
    hide Proves, RowRecords;
    if i < n - 1 { ProvedRecorded(rows, n - 1, f, limit, lookup, i, record); }
    else { RowRecordsProve(rows[i], f, limit, lookup, record); }
  }

  // The source identity.

  lemma ColonNotWithin(a: string, x: string, b: string, y: string)
    requires a + (":" + x) == b + (":" + y) && forall k :: 0 <= k < |b| ==> b[k] != ':'
    ensures |a| >= |b|
  {
    assert (a + (":" + x))[|a|] == ':';
  }

  /** A number and a colon can be read off the front of a string in one way only. */
  lemma DecimalPrefix(m: nat, x: string, n: nat, y: string)
    requires Decimal(m) + (":" + x) == Decimal(n) + (":" + y)
    ensures m == n && x == y
  {
    DecimalIsDigits(m);
    DecimalIsDigits(n);
    var left, right := Decimal(m) + (":" + x), Decimal(n) + (":" + y);
    assert left[|Decimal(m)|] == ':' && right[|Decimal(n)|] == ':';
    assert left[..|Decimal(m)|] == Decimal(m) && right[..|Decimal(n)|] == Decimal(n);
    ColonNotWithin(Decimal(m), x, Decimal(n), y);
    ColonNotWithin(Decimal(n), y, Decimal(m), x);
    DecimalInjective(m, n);
    assert left[|Decimal(m)| + 1..] == x && right[|Decimal(n)| + 1..] == y;
  }

  /** A source identity determines the request and the transition, even if the request identity holds colons. */
  lemma SourceIdInjective(r: string, state: State, r': string, state': State)
    requires SourceId(r, state) == SourceId(r', state')
    ensures r == r' && state == state'
  {
    var tail, tail' := r + (":" + StateName(state)), r' + (":" + StateName(state'));
    var prefix := "admission:";
    assert SourceId(r, state)[|prefix|..] == Decimal(|r|) + (":" + tail);
    assert SourceId(r', state')[|prefix|..] == Decimal(|r'|) + (":" + tail');
    DecimalPrefix(|r|, tail, |r'|, tail');
    assert tail[..|r|] == r && tail'[..|r|] == r';
    assert tail[|r| + 1..] == StateName(state) && tail'[|r| + 1..] == StateName(state');
    assert StateName(state)[0] == StateName(state')[0];
  }

  // Stability over runs.

  lemma {:induction false} ListedRow(rows: seq<Row>, n: nat, f: string, capacity: nat, k: nat) returns (i: nat)
    requires n <= |rows| && k < |Listing(rows, n, f, capacity)|
    ensures i < n && rows[i].factoryId == f && Listing(rows, n, f, capacity)[k] == ViewOf(rows, i, f, capacity)
  {
    if k < |Listing(rows, n - 1, f, capacity)| { i := ListedRow(rows, n - 1, f, capacity, k); } else { i := n - 1; }
  }

  lemma {:induction false} RowListed(rows: seq<Row>, n: nat, f: string, capacity: nat, i: nat) returns (k: nat)
    requires n <= |rows| && i < n && rows[i].factoryId == f
    ensures k < |Listing(rows, n, f, capacity)| && Listing(rows, n, f, capacity)[k] == ViewOf(rows, i, f, capacity)
  {
    if i < n - 1 { k := RowListed(rows, n - 1, f, capacity, i); } else { k := |Listing(rows, n - 1, f, capacity)|; }
  }

  /** The records are a projection of the factory's rows in s. */
  ghost predicate Projection(s: Store, f: string, lookup: Lookup, records: seq<Fact>) {
    f in s.capacities &&
    var listed := Listing(s.rows, |s.rows|, f, s.capacities[f]);
    Records(listed, |listed|, f, s.capacities[f], lookup) == Success(records)
  }

  /** A projected record comes from one of the factory's rows. */
  lemma RecordRow(s: Store, f: string, lookup: Lookup, records: seq<Fact>, record: Fact) returns (i: nat)
    requires Projection(s, f, lookup, records) && record in records
    ensures i < |s.rows| && s.rows[i].factoryId == f
    ensures Proves(ViewOf(s.rows, i, f, s.capacities[f]), f, s.capacities[f], lookup, record)
  {
    var listed := Listing(s.rows, |s.rows|, f, s.capacities[f]);
    var k := RecordsProved(listed, |listed|, f, s.capacities[f], lookup, record);
    i := ListedRow(s.rows, |s.rows|, f, s.capacities[f], k);
  }

  /** An admitted or released fact once projected appears unchanged in every later projection. */
  lemma FactsAreStable(before: seq<Op>, later: seq<Op>, f: string, lookup: Lookup, records: seq<Fact>,
      records': seq<Fact>, record: Fact)
    requires Projection(Run(EMPTY, before), f, lookup, records)
    requires Projection(Run(Run(EMPTY, before), later), f, lookup, records')
    requires record in records && !record.state.Queued?
    ensures record in records'
  {
    hide Inv, Run, Identifier, SourceId, Records;
    var s, s' := Run(EMPTY, before), Run(Run(EMPTY, before), later);
    EmptyInv();
    RunKeeps(EMPTY, before);
    RunKeeps(s, later);
    var i := RecordRow(s, f, lookup, records, record);
    assert RowGrows(s.rows[i], s'.rows[i]);
    var listed := Listing(s'.rows, |s'.rows|, f, s'.capacities[f]);
    var k := RowListed(s'.rows, |s'.rows|, f, s'.capacities[f], i);
    ProvedRecorded(listed, |listed|, f, s'.capacities[f], lookup, k, record);
  }

  lemma OneRowPerRequest(s: Store, i: nat, k: nat)
    requires RowsOk(s) && i < |s.rows| && k < |s.rows|
    requires s.rows[i].factoryId == s.rows[k].factoryId && s.rows[i].requestId == s.rows[k].requestId
    ensures i == k
  {
    hide RowOk;
    assert i < k ==> Distinct(s.rows[i], s.rows[k]);
    assert k < i ==> Distinct(s.rows[k], s.rows[i]);
  }

  /** No source identity ever names two different facts, in one projection or in two at different times. */
  lemma SourceIdsNameOneFact(before: seq<Op>, later: seq<Op>, f: string, lookup: Lookup, records: seq<Fact>,
      records': seq<Fact>, a: Fact, b: Fact)
    requires Projection(Run(EMPTY, before), f, lookup, records)
    requires Projection(Run(Run(EMPTY, before), later), f, lookup, records')
    requires a in records && b in records' && a.sourceId == b.sourceId
    ensures a == b
  {
    hide Run, Identifier, SourceId, FactoryOk, ReceiptOk, RowOk, Distinct, Records;
    var s, s' := Run(EMPTY, before), Run(Run(EMPTY, before), later);
    EmptyInv();
    RunKeeps(EMPTY, before);
    RunKeeps(s, later);
    var i := RecordRow(s, f, lookup, records, a);
    var k := RecordRow(s', f, lookup, records', b);
    SourceIdInjective(a.admissionId, a.state, b.admissionId, b.state);
    assert RowGrows(s.rows[i], s'.rows[i]);
    OneRowPerRequest(s', i, k);
  }
}
