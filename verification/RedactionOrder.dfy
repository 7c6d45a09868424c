/** In which order, and how often, the history walk records its places: `_redact_history` of
    prototype/temporal-factory/scenarios/single_factory.py records each redacted field once, in document order. */
module RedactionOrder {
  import opened Prelude
  import opened Payloads
  import opened Redaction

  /** A place by numbers: which field or item to enter, at each object or list. */
  type Mark = seq<nat>

  /** Document order. */
  predicate Earlier(m: Mark, n: Mark)
    decreases |m|
  {
    m != [] && n != [] && (m[0] < n[0] || (m[0] == n[0] && Earlier(m[1..], n[1..])))
  }

  predicate InOrder(marks: seq<Mark>) {
    forall i, k :: 0 <= i < k < |marks| ==> Earlier(marks[i], marks[k])
  }

  /** Mark m leads, past no sensitive field, to a sensitive field; p is the path of keys and indexes on the way. */
  predicate Names(value: Json, m: Mark, p: Path)
    decreases |m|
  {
    && m != [] && p != []
    && match value
       case Object(fields) =>
         && m[0] < |fields| && p[0] == Key(fields[m[0]].key)
         && if Sensitive(fields[m[0]].key) then |m| == 1 && |p| == 1 else Names(fields[m[0]].value, m[1..], p[1..])
       case List(items) => m[0] < |items| && p[0] == Index(m[0]) && Names(items[m[0]], m[1..], p[1..])
       case _ => false
  }

  function Under(k: nat, marks: seq<Mark>): seq<Mark> {
    seq(|marks|, i requires 0 <= i < |marks| => [k] + marks[i])
  }

  function MarksOf(value: Json): seq<Mark>
    decreases value, 1, 0
  {
    match value
    case Object(fields) => FieldMarks(value, |fields|)
    case List(items) => ItemMarks(value, |items|)
    case _ => []
  }

  function FieldMarks(value: Json, n: nat): seq<Mark>
    requires value.Object? && n <= |value.fields|
    decreases value, 0, n
  {
    if n == 0 then []
    else
      var f := value.fields[n - 1];
      FieldMarks(value, n - 1) + if Sensitive(f.key) then [[n - 1]] else Under(n - 1, MarksOf(f.value))
  }

  function ItemMarks(value: Json, n: nat): seq<Mark>
    requires value.List? && n <= |value.items|
    decreases value, 0, n
  {
    if n == 0 then [] else ItemMarks(value, n - 1) + Under(n - 1, MarksOf(value.items[n - 1]))
  }

  /** The places recorded after `at` are those the marks name, one by one. */
  ghost predicate NamesEach(value: Json, marks: seq<Mark>, at: Path, places: seq<Path>) {
    |marks| == |places| && forall i :: 0 <= i < |marks| ==> at <= places[i] && Names(value, marks[i], places[i][|at|..])
  }

  lemma JoinNames(value: Json, a: seq<Mark>, b: seq<Mark>, at: Path, x: seq<Path>, y: seq<Path>)
    requires NamesEach(value, a, at, x) && NamesEach(value, b, at, y)
    ensures NamesEach(value, a + b, at, x + y)
  {
    hide Names;
  }

  /** What a field's or an item's marks name below it, they name from above it. */
  lemma NamesUnder(value: Json, k: nat, s: Redaction.Step, child: Json, marks: seq<Mark>, at: Path, places: seq<Path>)
    requires NamesEach(child, marks, at + [s], places)
    requires (value.Object? && k < |value.fields| && s == Key(value.fields[k].key) && !Sensitive(value.fields[k].key)
              && child == value.fields[k].value)
      || (value.List? && k < |value.items| && s == Index(k) && child == value.items[k])
    ensures NamesEach(value, Under(k, marks), at, places)
  {
    hide Sensitive;
    forall i | 0 <= i < |marks| ensures at <= places[i] && Names(value, Under(k, marks)[i], places[i][|at|..]) {
      var p := places[i];
      PlaceTail(p, at, s);
      assert Names(child, marks[i], p[|at + [s]|..]);
      assert Under(k, marks)[i][1..] == marks[i] && p[|at|..][1..] == p[|at + [s]|..] && p[|at|..][0] == s;
    }
  }

  lemma {:induction false} MarksName(value: Json, at: Path)
    ensures NamesEach(value, MarksOf(value), at, Places(value, at))
    decreases value, 1, 0
  {
    hide NamesEach;
    NothingNamed(value, at);
    if value.Object? { FieldMarksName(value, |value.fields|, at); }
    else if value.List? { ItemMarksName(value, |value.items|, at); }
  }

  lemma NothingNamed(value: Json, at: Path)
    ensures NamesEach(value, [], at, [])
  {
  }

  lemma {:induction false} FieldMarksName(value: Json, n: nat, at: Path)
    requires value.Object? && n <= |value.fields|
    ensures NamesEach(value, FieldMarks(value, n), at, FieldPlaces(value, n, at))
    decreases value, 0, n
  {
    hide NamesEach, MarksOf, Places, Sensitive, Redacted;
    NothingNamed(value, at);
    if n > 0 {
      var f := value.fields[n - 1];
      var here := at + [Key(f.key)];
      SameKeys(f.key);
      FieldMarksName(value, n - 1, at);
      if Sensitive(f.key) {
        FieldNamed(value, n - 1, at);
        JoinNames(value, FieldMarks(value, n - 1), [[n - 1]], at, FieldPlaces(value, n - 1, at), [here]);
      } else {
        MarksName(f.value, here);
        NamesUnder(value, n - 1, Key(f.key), f.value, MarksOf(f.value), at, Places(f.value, here));
        JoinNames(value, FieldMarks(value, n - 1), Under(n - 1, MarksOf(f.value)), at, FieldPlaces(value, n - 1, at),
                  Places(f.value, here));
      }
    }
  }

  lemma FieldNamed(value: Json, k: nat, at: Path)
    requires value.Object? && k < |value.fields| && Sensitive(value.fields[k].key)
    ensures NamesEach(value, [[k]], at, [at + [Key(value.fields[k].key)]])
  {
    hide Sensitive;
    assert (at + [Key(value.fields[k].key)])[|at|..] == [Key(value.fields[k].key)];
  }

  lemma {:induction false} ItemMarksName(value: Json, n: nat, at: Path)
    requires value.List? && n <= |value.items|
    ensures NamesEach(value, ItemMarks(value, n), at, ItemPlaces(value, n, at))
    decreases value, 0, n
  {
    hide NamesEach, MarksOf, Places;
    NothingNamed(value, at);
    if n > 0 {
      var here := at + [Index(n - 1)];
      ItemMarksName(value, n - 1, at);
      MarksName(value.items[n - 1], here);
      NamesUnder(value, n - 1, Index(n - 1), value.items[n - 1], MarksOf(value.items[n - 1]), at,
                 Places(value.items[n - 1], here));
      JoinNames(value, ItemMarks(value, n - 1), Under(n - 1, MarksOf(value.items[n - 1])), at,
                ItemPlaces(value, n - 1, at), Places(value.items[n - 1], here));
    }
  }

  // In order, and complete.

  lemma OrderJoins(a: seq<Mark>, b: seq<Mark>, k: nat)
    requires InOrder(a) && InOrder(b) && forall m :: m in a ==> m != [] && m[0] < k
    requires forall m :: m in b ==> m != [] && m[0] == k
    ensures InOrder(a + b)
  {
    forall i, j | 0 <= i < j < |a + b| ensures Earlier((a + b)[i], (a + b)[j]) {
      if i < |a| <= j { assert a[i] in a && b[j - |a|] in b; }
    }
  }

  lemma OrderUnder(k: nat, marks: seq<Mark>)
    requires InOrder(marks)
    ensures InOrder(Under(k, marks)) && forall m :: m in Under(k, marks) ==> m != [] && m[0] == k
  {
    forall i, j | 0 <= i < j < |marks| ensures Earlier(Under(k, marks)[i], Under(k, marks)[j]) {
      assert ([k] + marks[i])[1..] == marks[i] && ([k] + marks[j])[1..] == marks[j];
    }
  }

  lemma NothingInOrder(k: nat)
    ensures InOrder([]) && InOrder([[k]])
  {
  }

  lemma {:induction false} MarksInOrder(value: Json)
    ensures InOrder(MarksOf(value))
    decreases value, 1, 0
  {
    hide InOrder;
    NothingInOrder(0);
    if value.Object? { FieldMarksInOrder(value, |value.fields|); }
    else if value.List? { ItemMarksInOrder(value, |value.items|); }
  }

  lemma {:induction false} FieldMarksInOrder(value: Json, n: nat)
    requires value.Object? && n <= |value.fields|
    ensures InOrder(FieldMarks(value, n)) && forall m :: m in FieldMarks(value, n) ==> m != [] && m[0] < n
    decreases value, 0, n
  {
    hide InOrder, MarksOf, Sensitive, Under;
    NothingInOrder(n);
    if n > 0 {
      var f := value.fields[n - 1];
      FieldMarksInOrder(value, n - 1);
      NothingInOrder(n - 1);
      MarksInOrder(f.value);
      OrderUnder(n - 1, MarksOf(f.value));
      var last := if Sensitive(f.key) then [[n - 1]] else Under(n - 1, MarksOf(f.value));
      OrderJoins(FieldMarks(value, n - 1), last, n - 1);
    }
  }

  lemma {:induction false} ItemMarksInOrder(value: Json, n: nat)
    requires value.List? && n <= |value.items|
    ensures InOrder(ItemMarks(value, n)) && forall m :: m in ItemMarks(value, n) ==> m != [] && m[0] < n
    decreases value, 0, n
  {
    hide InOrder, MarksOf, Under;
    NothingInOrder(n);
    if n > 0 {
      ItemMarksInOrder(value, n - 1);
      MarksInOrder(value.items[n - 1]);
      OrderUnder(n - 1, MarksOf(value.items[n - 1]));
      OrderJoins(ItemMarks(value, n - 1), Under(n - 1, MarksOf(value.items[n - 1])), n - 1);
    }
  }

  lemma UnderHas(k: nat, marks: seq<Mark>, m: Mark)
    requires m != [] && m[0] == k && m[1..] in marks
    ensures m in Under(k, marks)
  {
    var i :| 0 <= i < |marks| && marks[i] == m[1..];
    assert [k] + m[1..] == m && Under(k, marks)[i] == m;
  }

  lemma {:induction false} FieldMarkThere(value: Json, n: nat, k: nat, m: Mark)
    requires value.Object? && k < n <= |value.fields|
    requires m in if Sensitive(value.fields[k].key) then [[k]] else Under(k, MarksOf(value.fields[k].value))
    ensures m in FieldMarks(value, n)
  {
    hide MarksOf, Under, Sensitive;
    if k < n - 1 { FieldMarkThere(value, n - 1, k, m); }
  }

  lemma {:induction false} ItemMarkThere(value: Json, n: nat, k: nat, m: Mark)
    requires value.List? && k < n <= |value.items| && m in Under(k, MarksOf(value.items[k]))
    ensures m in ItemMarks(value, n)
  {
    hide MarksOf, Under;
    if k < n - 1 { ItemMarkThere(value, n - 1, k, m); }
  }

  lemma {:induction false} NamedIsMarked(value: Json, m: Mark, p: Path)
    requires Names(value, m, p)
    ensures m in MarksOf(value)
    decreases |m|
  {
    hide Under, Sensitive;
    if value.Object? {
      var f := value.fields[m[0]];
      if Sensitive(f.key) {
        assert m == [m[0]];
      } else {
        NamedIsMarked(f.value, m[1..], p[1..]);
        UnderHas(m[0], MarksOf(f.value), m);
      }
      FieldMarkThere(value, |value.fields|, m[0], m);
    } else {
      NamedIsMarked(value.items[m[0]], m[1..], p[1..]);
      UnderHas(m[0], MarksOf(value.items[m[0]]), m);
      ItemMarkThere(value, |value.items|, m[0], m);
    }
  }

  /** The walk records every redacted field exactly once and in document order: there are marks, in strict document
      order and so all different, that name the recorded places one by one, and every mark that leads to a redacted
      field is among them. */
  lemma RecordedInOrder(document: Json) returns (marks: seq<Mark>)
    ensures |marks| == |Places(document, [])| && InOrder(marks)
    ensures forall i :: 0 <= i < |marks| ==> Names(document, marks[i], Places(document, [])[i])
    ensures forall m, p :: Names(document, m, p) ==> m in marks
  {
    hide Names, Places, MarksOf;
    marks := MarksOf(document);
    MarksInOrder(document);
    MarksName(document, []);
    var root: Path := [];
    assert forall p: Path :: p[|root|..] == p;
    forall m, p | Names(document, m, p) ensures m in marks { NamedIsMarked(document, m, p); }
  }
}
