/** What an admission observation says, said over the rows it was projected from:
    prototype/temporal-factory/src/admission_observation.py. */
module AdmissionFacts {
  import opened Prelude
  import opened Admission
  import opened AdmissionObservation

  predicate GoodTime(t: Option<string>, lookup: Lookup) { t.Some? && 1 <= |t.value| <= 64 && lookup.isTime(t.value) }

  /** The row passes every check: its own factory and capacity, well formed identities, a Task bound to a run and a
      context, and a time for each transition its state proves. */
  predicate RowFits(v: View, f: string, limit: nat, lookup: Lookup) {
    && v.factoryId == f && Identifier(v.requestId) && Identifier(v.taskId)
    && v.capacity == limit <= 0x7fff_ffff_ffff_ffff
    && lookup.binding(v.taskId).Some?
    && Identifier(lookup.binding(v.taskId).value.0) && Identifier(lookup.binding(v.taskId).value.1)
    && (v.state.Queued? ==> GoodTime(Some(v.createdAt), lookup))
    && (!v.state.Queued? ==> GoodTime(v.admittedAt, lookup))
    && (v.state.Released? ==> GoodTime(v.releasedAt, lookup))
  }

  /** The fact is about this row and one transition of it, at the time the row has for that transition. */
  predicate Tells(fact: Fact, v: View, state: State, lookup: Lookup) {
    && fact.state == state && fact.admissionId == v.requestId && fact.taskId == v.taskId
    && fact.factoryId == v.factoryId
    && fact.capacityLimit == v.capacity && lookup.binding(v.taskId) == Some((fact.runId, fact.contextId))
    && match state
       case Queued => fact.time == v.createdAt
       case Admitted => v.admittedAt == Some(fact.time)
       case Released => v.releasedAt == Some(fact.time)
  }

  /** The facts of one row: a waiting row proves that it was queued, an admitted one that it was admitted, and a
      released one its admission and then its release. */
  predicate RowTold(facts: seq<Fact>, v: View, lookup: Lookup) {
    match v.state
    case Queued => |facts| == 1 && Tells(facts[0], v, Queued, lookup)
    case Admitted => |facts| == 1 && Tells(facts[0], v, Admitted, lookup)
    case Released => |facts| == 2 && Tells(facts[0], v, Admitted, lookup) && Tells(facts[1], v, Released, lookup)
  }

  lemma RowFactsExactly(v: View, f: string, limit: nat, lookup: Lookup)
    ensures RowRecords(v, f, limit, lookup).Success? <==> RowFits(v, f, limit, lookup)
    ensures RowRecords(v, f, limit, lookup).Success? ==> RowTold(RowRecords(v, f, limit, lookup).value, v, lookup)
  {
    hide SourceId, Identifier, RowBinding;
    BindingFits(v, f, limit, lookup);
    var bound := RowBinding(v, f, limit, lookup);
    if bound.Success? {
      var b := bound.value;
      var empty: seq<Fact> := [];
      assert StepRecords(v, 0, b, lookup) == Success(empty);
      assert StepRecords(v, 1, b, lookup).Success? ==> |StepRecords(v, 1, b, lookup).value| == 1;
    }
  }

  lemma BindingFits(v: View, f: string, limit: nat, lookup: Lookup)
    ensures RowBinding(v, f, limit, lookup).Success? <==>
      && v.factoryId == f && Identifier(v.requestId) && Identifier(v.taskId)
      && v.capacity == limit <= 0x7fff_ffff_ffff_ffff && lookup.binding(v.taskId).Some?
      && Identifier(lookup.binding(v.taskId).value.0) && Identifier(lookup.binding(v.taskId).value.1)
    ensures RowBinding(v, f, limit, lookup).Success? ==>
      lookup.binding(v.taskId) == Some(RowBinding(v, f, limit, lookup).value)
  {
    hide Identifier;
  }

  function Flat(parts: seq<seq<Fact>>): seq<Fact> {
    if parts == [] then [] else Flat(parts[..|parts| - 1]) + parts[|parts| - 1]
  }

  /** The projection succeeds exactly when every row fits, and is then the facts of the rows, row by row: `parts[i]` are
      those of row i. */
  lemma {:induction false} FactsExactly(rows: seq<View>, n: nat, f: string, limit: nat, lookup: Lookup)
    returns (parts: seq<seq<Fact>>)
    requires n <= |rows|
    ensures Records(rows, n, f, limit, lookup).Success? <==> forall i :: 0 <= i < n ==>
      RowFits(rows[i], f, limit, lookup)
    ensures Records(rows, n, f, limit, lookup).Success? ==>
      && |parts| == n && Records(rows, n, f, limit, lookup).value == Flat(parts)
      && forall i :: 0 <= i < n ==> RowTold(parts[i], rows[i], lookup)
  {
    hide RowFits, RowRecords, RowTold;
    parts := [];
    if n > 0 {
      parts := FactsExactly(rows, n - 1, f, limit, lookup);
      RowFactsExactly(rows[n - 1], f, limit, lookup);
      if Records(rows, n, f, limit, lookup).Success? {
        var last := RowRecords(rows[n - 1], f, limit, lookup).value;
        assert (parts + [last])[..n - 1] == parts;
        parts := parts + [last];
      }
    }
  }
}
