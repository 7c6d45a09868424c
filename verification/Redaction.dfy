/** Redaction of exported histories and the verifier of what was redacted: `_redact_history` and `_redact_export` of
    prototype/temporal-factory/scenarios/single_factory.py, `verify_redaction` of scenarios/sf_attest.py. */
module Redaction {
  import opened Prelude
  import opened Payloads

  /** The keys redacted in a history: eight, and "input". */
  predicate Redacted(key: string) {
    key == "input" || key in ["token", "actor", "authorized_actor", "owner_epoch", "epoch", "package", "closure",
      "bindings"]
  }

  /** The keys the export and the verifier list. */
  predicate Sensitive(key: string) {
    key in ["token", "actor", "authorized_actor", "owner_epoch", "epoch", "package", "closure", "bindings", "input"]
  }

  /** `_redact_export`. */
  function RedactExport(value: Json, d: Digests): Json
    decreases value
  {
    match value
    case Object(fields) => Object(seq(|fields|, k requires 0 <= k < |fields| =>
        Field(fields[k].key, if Sensitive(fields[k].key) then Digested(fields[k].value, d)
          else RedactExport(fields[k].value, d))))
    case List(items) => List(seq(|items|, k requires 0 <= k < |items| => RedactExport(items[k], d)))
    case _ => value
  }

  // Paths.

  datatype Step = Key(key: string) | Index(index: nat)

  type Path = seq<Step>

  function StepText(s: Step): string {
    match s case Key(key) => "." + key case Index(index) => "[" + Decimal(index) + "]"
  }

  /** A path as the history records it, after the text of its start. */
  function PathText(start: string, path: Path): string {
    if path == [] then start else PathText(start, path[..|path| - 1]) + StepText(path[|path| - 1])
  }

  /** The redacted places of a value in document order, each prefixed with `at`. */
  function Places(value: Json, at: Path): seq<Path>
    decreases value, 1, 0
  {
    match value
    case Object(fields) => FieldPlaces(value, |fields|, at)
    case List(items) => ItemPlaces(value, |items|, at)
    case _ => []
  }

  /** Those of the first n fields. */
  function FieldPlaces(value: Json, n: nat, at: Path): seq<Path>
    requires value.Object? && n <= |value.fields|
    decreases value, 0, n
  {
    if n == 0 then []
    else
      var f := value.fields[n - 1];
      FieldPlaces(value, n - 1, at) +
      if Redacted(f.key) then [at + [Key(f.key)]] else Places(f.value, at + [Key(f.key)])
  }

  /** Those of the first n items. */
  function ItemPlaces(value: Json, n: nat, at: Path): seq<Path>
    requires value.List? && n <= |value.items|
    decreases value, 0, n
  {
    if n == 0 then [] else ItemPlaces(value, n - 1, at) + Places(value.items[n - 1], at + [Index(n - 1)])
  }

  function Texts(start: string, paths: seq<Path>): seq<string> {
    seq(|paths|, k requires 0 <= k < |paths| => PathText(start, paths[k]))
  }

  lemma SameKeys(key: string)
    ensures Redacted(key) <==> Sensitive(key)
  {
  }

  /** One field of the export. */
  function RedactField(f: Field, d: Digests): Field {
    Field(f.key, if Sensitive(f.key) then Digested(f.value, d) else RedactExport(f.value, d))
  }

  lemma TextsJoin(start: string, a: seq<Path>, b: seq<Path>)
    ensures Texts(start, a + b) == Texts(start, a) + Texts(start, b)
  {
  }

  /** The history walk: values are replaced one by one, and each place is recorded as it is redacted. `at` is the path
      that `text` renders. */
  method Walk(value: Json, ghost at: Path, ghost start: string, text: string, d: Digests)
    returns (redacted: Json, paths: seq<string>)
    requires text == PathText(start, at)
    ensures redacted == RedactExport(value, d) && paths == Texts(start, Places(value, at))
    decreases value, 1
  {
    if value.Object? {
      redacted, paths := WalkObject(value, at, start, text, d);
    } else if value.List? {
      redacted, paths := WalkList(value, at, start, text, d);
    } else {
      redacted, paths := value, [];
    }
  }

  method WalkObject(value: Json, ghost at: Path, ghost start: string, text: string, d: Digests)
    returns (redacted: Json, paths: seq<string>)
    requires value.Object? && text == PathText(start, at)
    ensures redacted == RedactExport(value, d) && paths == Texts(start, FieldPlaces(value, |value.fields|, at))
    decreases value, 0
  {
    hide RedactExport, Places, Digested, Redacted, Sensitive, PathText, StepText, Shrinks, PayloadsOf;
    var fields := value.fields;
    paths := [];
    for k := 0 to |value.fields|
      invariant |fields| == |value.fields|
      invariant forall j :: k <= j < |fields| ==> fields[j] == value.fields[j]
      invariant forall j :: 0 <= j < k ==> fields[j] == RedactField(value.fields[j], d)
      invariant paths == Texts(start, FieldPlaces(value, k, at))
    {
      var key, child := fields[k].key, fields[k].value;
      ghost var here := at + [Key(key)];
      SameKeys(key);
      StepKey(start, at, key);
      var more;
      if Redacted(key) {
        var digested := Digest(child, d);
        fields := fields[k := Field(key, digested)];
        more := [text + ("." + key)];
        TextsJoin(start, FieldPlaces(value, k, at), [here]);
      } else {
        var done;
        done, more := Walk(child, here, start, text + ("." + key), d);
        fields := fields[k := Field(key, done)];
        TextsJoin(start, FieldPlaces(value, k, at), Places(child, here));
      }
      paths := paths + more;
    }
    redacted := Object(fields);
    ExportOfObject(value, fields, d);
  }

  method WalkList(value: Json, ghost at: Path, ghost start: string, text: string, d: Digests)
    returns (redacted: Json, paths: seq<string>)
    requires value.List? && text == PathText(start, at)
    ensures redacted == RedactExport(value, d) && paths == Texts(start, ItemPlaces(value, |value.items|, at))
    decreases value, 0
  {
    hide RedactExport, Places, PathText, StepText;
    var items := value.items;
    paths := [];
    for k := 0 to |value.items|
      invariant |items| == |value.items|
      invariant forall j :: k <= j < |items| ==> items[j] == value.items[j]
      invariant forall j :: 0 <= j < k ==> items[j] == RedactExport(value.items[j], d)
      invariant paths == Texts(start, ItemPlaces(value, k, at))
    {
      ghost var here := at + [Index(k)];
      StepIndex(start, at, k);
      var done, more := Walk(items[k], here, start, text + ("[" + Decimal(k) + "]"), d);
      items := items[k := done];
      paths := paths + more;
      TextsJoin(start, ItemPlaces(value, k, at), Places(value.items[k], here));
    }
    redacted := List(items);
    ExportOfList(value, items, d);
  }

  lemma StepKey(start: string, at: Path, key: string)
    ensures PathText(start, at + [Key(key)]) == PathText(start, at) + ("." + key)
  {
    assert (at + [Key(key)])[..|at|] == at;
  }

  lemma StepIndex(start: string, at: Path, k: nat)
    ensures PathText(start, at + [Index(k)]) == PathText(start, at) + ("[" + Decimal(k) + "]")
  {
    assert (at + [Index(k)])[..|at|] == at;
    assert "[" + Decimal(k) + "]" == "[" + (Decimal(k) + "]");
  }

  lemma ExportOfObject(value: Json, fields: seq<Field>, d: Digests)
    requires value.Object? && |fields| == |value.fields|
    requires forall j :: 0 <= j < |fields| ==> fields[j] == RedactField(value.fields[j], d)
    ensures RedactExport(value, d) == Object(fields)
  {
    hide Digested, Sensitive, Shrinks, PayloadsOf;
    assert RedactExport(value, d).fields == fields;
  }

  lemma ExportOfList(value: Json, items: seq<Json>, d: Digests)
    requires value.List? && |items| == |value.items|
    requires forall j :: 0 <= j < |items| ==> items[j] == RedactExport(value.items[j], d)
    ensures RedactExport(value, d) == List(items)
  {
    assert RedactExport(value, d).items == items;
  }

  /** `_redact_history` refuses a history with nothing to redact. */
  method RedactHistory(document: Json, d: Digests) returns (result: Result<(Json, seq<string>)>)
    ensures result.Success? <==> Places(document, []) != []
    ensures result.Success? ==> result.value == (RedactExport(document, d), Texts("$", Places(document, [])))
  {
    var redacted, paths := Walk(document, [], "$", "$", d);
    if paths == [] { return Failure("history has no start or child input to redact"); }
    result := Success((redacted, paths));
  }

  // Which places are recorded.

  /** One step from a value to a child of it. */
  ghost predicate Child(value: Json, s: Step, child: Json) {
    match s
    case Key(key) => value.Object? && Field(key, child) in value.fields
    case Index(index) => value.List? && index < |value.items| && value.items[index] == child
  }

  /** Path p leads from the value to something. */
  ghost predicate Leads(value: Json, p: Path)
    decreases |p|
  {
    p == [] || exists child :: Child(value, p[0], child) && Leads(child, p[1..])
  }

  predicate SensitiveStep(s: Step) { s.Key? && Sensitive(s.key) }

  /** Path p leads to a sensitive key under no other sensitive key. */
  ghost predicate Topmost(value: Json, p: Path) {
    && p != [] && Leads(value, p) && SensitiveStep(p[|p| - 1])
    && forall k :: 0 <= k < |p| - 1 ==> !SensitiveStep(p[k])
  }

  lemma TopmostBelow(value: Json, s: Step, child: Json, rest: Path)
    requires Child(value, s, child) && !SensitiveStep(s) && Topmost(child, rest)
    ensures Topmost(value, [s] + rest)
  {
    hide Child, SensitiveStep;
    var p := [s] + rest;
    assert p[1..] == rest && p[0] == s;
    forall k | 0 <= k < |p| - 1 ensures !SensitiveStep(p[k]) {
      if k > 0 { assert p[k] == rest[k - 1]; }
    }
  }

  lemma TopmostHere(value: Json, s: Step, child: Json)
    requires Child(value, s, child) && SensitiveStep(s)
    ensures Topmost(value, [s])
  {
    assert [s][1..] == [] && Leads(child, [s][1..]);
  }

  lemma PlaceTail(p: Path, at: Path, s: Step)
    requires at + [s] <= p
    ensures at <= p && p[|at|..] == [s] + p[|at + [s]|..]
  {
    assert p[..|at| + 1] == at + [s];
  }

  lemma {:induction false} PlacedIsTopmost(value: Json, at: Path, p: Path)
    requires p in Places(value, at)
    ensures at <= p && Topmost(value, p[|at|..])
    decreases value, 1, 0
  {
    hide Topmost;
    if value.Object? { FieldPlacedIsTopmost(value, |value.fields|, at, p); }
    else if value.List? { ItemPlacedIsTopmost(value, |value.items|, at, p); }
  }

  lemma {:induction false} FieldPlacedIsTopmost(value: Json, n: nat, at: Path, p: Path)
    requires value.Object? && n <= |value.fields| && p in FieldPlaces(value, n, at)
    ensures at <= p && Topmost(value, p[|at|..])
    decreases value, 0, n
  {
    hide Topmost, Places, Redacted, Sensitive;
    var f := value.fields[n - 1];
    var s := Key(f.key);
    SameKeys(f.key);
    if p in FieldPlaces(value, n - 1, at) {
      FieldPlacedIsTopmost(value, n - 1, at, p);
    } else if Redacted(f.key) {
      assert p[|at|..] == [s];
      TopmostHere(value, s, f.value);
    } else {
      PlacedIsTopmost(f.value, at + [s], p);
      PlaceTail(p, at, s);
      TopmostBelow(value, s, f.value, p[|at + [s]|..]);
    }
  }

  lemma {:induction false} ItemPlacedIsTopmost(value: Json, n: nat, at: Path, p: Path)
    requires value.List? && n <= |value.items| && p in ItemPlaces(value, n, at)
    ensures at <= p && Topmost(value, p[|at|..])
    decreases value, 0, n
  {
    hide Topmost, Places;
    if p in ItemPlaces(value, n - 1, at) {
      ItemPlacedIsTopmost(value, n - 1, at, p);
    } else {
      var s := Index(n - 1);
      PlacedIsTopmost(value.items[n - 1], at + [s], p);
      PlaceTail(p, at, s);
      TopmostBelow(value, s, value.items[n - 1], p[|at + [s]|..]);
    }
  }

  lemma {:induction false} FieldPlaced(value: Json, n: nat, at: Path, k: nat, p: Path)
    requires value.Object? && k < n <= |value.fields|
    requires var f := value.fields[k];
      p in if Redacted(f.key) then [at + [Key(f.key)]] else Places(f.value, at + [Key(f.key)])
    ensures p in FieldPlaces(value, n, at)
  {
    if k < n - 1 { FieldPlaced(value, n - 1, at, k, p); }
  }

  lemma {:induction false} ItemPlaced(value: Json, n: nat, at: Path, k: nat, p: Path)
    requires value.List? && k < n <= |value.items| && p in Places(value.items[k], at + [Index(k)])
    ensures p in ItemPlaces(value, n, at)
  {
    if k < n - 1 { ItemPlaced(value, n - 1, at, k, p); }
  }

  lemma TopmostTail(value: Json, p: Path) returns (child: Json)
    requires Topmost(value, p)
    ensures p != [] && Child(value, p[0], child) && (|p| > 1 ==> !SensitiveStep(p[0]) && Topmost(child, p[1..]))
    ensures (|p| == 1 ==> SensitiveStep(p[0]))
  {
    child :| Child(value, p[0], child) && Leads(child, p[1..]);
    assert forall k :: 0 <= k < |p| - 1 ==> p[1..][k] == p[k + 1];
  }

  lemma {:induction false} TopmostIsPlaced(value: Json, at: Path, p: Path)
    requires Topmost(value, p)
    ensures at + p in Places(value, at)
    decreases |p|
  {
    hide Topmost, Redacted, Sensitive;
    var child := TopmostTail(value, p);
    var here := at + [p[0]];
    assert at + p == here + p[1..];
    if |p| > 1 { TopmostIsPlaced(child, here, p[1..]); } else { assert at + p == here; }
    match p[0] {
      case Key(key) =>
        SameKeys(key);
        var k :| 0 <= k < |value.fields| && value.fields[k] == Field(key, child);
        FieldPlaced(value, |value.fields|, at, k, at + p);
      case Index(index) =>
        ItemPlaced(value, |value.items|, at, index, at + p);
    }
  }

  /** The history records exactly the topmost sensitive keys, and no recorded place lies inside another. */
  lemma PlacesAreTopmost(document: Json, p: Path, q: Path)
    ensures p in Places(document, []) <==> Topmost(document, p)
    ensures p in Places(document, []) && q in Places(document, []) && p <= q ==> p == q
  {
    if p in Places(document, []) { PlacedIsTopmost(document, [], p); }
    if q in Places(document, []) { PlacedIsTopmost(document, [], q); }
    if Topmost(document, p) { TopmostIsPlaced(document, [], p); assert [] + p == p; }
    var root: Path := [];
    assert p[|root|..] == p && q[|root|..] == q;
    if p <= q && p != [] && |p| < |q| { assert q[|p| - 1] == p[|p| - 1]; }
  }

  // The verifier.

  /** What the verifier looks for in a string: a token, and a document in base64. */
  datatype Probe = Probe(isToken: string -> bool, decode: string -> Option<Json>)

  predicate IsContainer(value: Json) { value.List? || value.Object? }

  function Decoded(s: string, probe: Probe): Option<Json> {
    match probe.decode(s) case Some(value) => if IsContainer(value) then Some(value) else None case None => None
  }

  predicate IsDigestString(value: Json) { value.Str? && HexDigest(value.s) }

  /** The shape left in place of a redacted value: these two keys, a digest and a list of digests. */
  predicate IsDigested(value: Json) {
    && value.Object? && |value.fields| == 2
    && var json, payloads := Get(value.fields, "redacted_sha256"), Get(value.fields, "decoded_payload_sha256");
       && json.Some? && payloads.Some? && IsDigestString(json.value)
       && payloads.value.List?
       && forall k :: 0 <= k < |payloads.value.items| ==> IsDigestString(payloads.value.items[k])
  }

  const MAX_DEPTH := 20

  /** How many violations the verifier counts in a value at this depth. */
  function Violations(value: Json, depth: nat, probe: Probe): nat
    decreases MAX_DEPTH + 1 - depth, 1, 0
  {
    if depth > MAX_DEPTH then 1
    else match value
      case Object(fields) => FieldViolations(fields, |fields|, depth, probe)
      case List(items) => ItemViolations(items, |items|, depth, probe)
      case Str(s) =>
        (if probe.isToken(s) then 1 else 0) +
        (match Decoded(s, probe) case Some(nested) => Violations(nested, depth + 1, probe) case None => 0)
      case Null => 0
      case Bool(_) => 0
      case Number(_) => 0
  }

  function FieldViolations(fields: seq<Field>, n: nat, depth: nat, probe: Probe): nat
    requires n <= |fields| && depth <= MAX_DEPTH
    decreases MAX_DEPTH + 1 - depth, 0, n
  {
    if n == 0 then 0
    else
      var f := fields[n - 1];
      FieldViolations(fields, n - 1, depth, probe) +
      if Sensitive(f.key) then (if IsDigested(f.value) then 0 else 1) else Violations(f.value, depth + 1, probe)
  }

  function ItemViolations(items: seq<Json>, n: nat, depth: nat, probe: Probe): nat
    requires n <= |items| && depth <= MAX_DEPTH
    decreases MAX_DEPTH + 1 - depth, 0, n
  {
    if n == 0 then 0 else ItemViolations(items, n - 1, depth, probe) + Violations(items[n - 1], depth + 1, probe)
  }

  /** The violation counter of `verify_redaction`, incremented as the walk goes. */
  class Verifier {
    const probe: Probe
    var violations: nat

    constructor (p: Probe)
      ensures probe == p && violations == 0
    {
      probe, violations := p, 0;
    }

    /** `walk` of `verify_redaction`. */
    method Walk(value: Json, depth: nat)
      requires depth <= MAX_DEPTH + 1
      modifies this
      ensures violations == old(violations) + Violations(value, depth, probe)
      decreases MAX_DEPTH + 1 - depth
    {
      hide IsDigested, Sensitive;
      if depth > MAX_DEPTH {
        violations := violations + 1;
        return;
      }
      match value {
        case Object(fields) =>
          for k := 0 to |fields|
            invariant violations == old(violations) + FieldViolations(fields, k, depth, probe)
          {
            if Sensitive(fields[k].key) {
              if !IsDigested(fields[k].value) { violations := violations + 1; }
            } else {
              Walk(fields[k].value, depth + 1);
            }
          }
        case List(items) =>
          for k := 0 to |items|
            invariant violations == old(violations) + ItemViolations(items, k, depth, probe)
          {
            Walk(items[k], depth + 1);
          }
        case Str(s) =>
          if probe.isToken(s) { violations := violations + 1; }
          var nested := Decoded(s, probe);
          if nested.Some? { Walk(nested.value, depth + 1); }
        case Null =>
        case Bool(_) =>
        case Number(_) =>
      }
    }
  }

  // When the verifier finds nothing.

  /** Path p reaches `child` without passing a sensitive key. */
  ghost predicate Reaches(value: Json, p: Path, child: Json)
    decreases |p|
  {
    if p == [] then child == value
    else !SensitiveStep(p[0]) && exists next :: Child(value, p[0], next) && Reaches(next, p[1..], child)
  }

  /** No token, and no base64 document with violations of its own at this depth. */
  predicate Quiet(s: string, depth: nat, probe: Probe) {
    !probe.isToken(s) && (Decoded(s, probe).Some? ==> Violations(Decoded(s, probe).value, depth + 1, probe) == 0)
  }

  /** Everything the redacted document still shows lies within the depth bound, and every string there is quiet. */
  ghost predicate Clean(value: Json, depth: nat, probe: Probe) {
    forall p, child :: Reaches(value, p, child) ==>
      depth + |p| <= MAX_DEPTH && (child.Str? ==> Quiet(child.s, depth + |p|, probe))
  }

  lemma ReachesHere(value: Json)
    ensures Reaches(value, [], value)
  {
  }

  lemma ReachesBelow(value: Json, s: Step, next: Json, p: Path, child: Json)
    requires Child(value, s, next) && !SensitiveStep(s) && Reaches(next, p, child)
    ensures Reaches(value, [s] + p, child)
  {
    assert ([s] + p)[1..] == p && ([s] + p)[0] == s;
  }

  /** Cleanness of a value is its own and that of what it shows. */
  lemma CleanChild(value: Json, depth: nat, probe: Probe, s: Step, next: Json)
    requires Clean(value, depth, probe) && Child(value, s, next) && !SensitiveStep(s)
    ensures Clean(next, depth + 1, probe)
  {
    hide Quiet, Child, SensitiveStep;
    forall p, child | Reaches(next, p, child)
      ensures depth + 1 + |p| <= MAX_DEPTH && (child.Str? ==> Quiet(child.s, depth + 1 + |p|, probe))
    {
      ReachesBelow(value, s, next, p, child);
      assert |[s] + p| == 1 + |p|;
    }
  }

  lemma CleanParent(value: Json, depth: nat, probe: Probe)
    requires depth <= MAX_DEPTH && (value.Str? ==> Quiet(value.s, depth, probe))
    requires forall s, next :: Child(value, s, next) && !SensitiveStep(s) ==> Clean(next, depth + 1, probe)
    ensures Clean(value, depth, probe)
  {
    hide Quiet, SensitiveStep;
    forall p, child | Reaches(value, p, child)
      ensures depth + |p| <= MAX_DEPTH && (child.Str? ==> Quiet(child.s, depth + |p|, probe))
    {
      if p != [] {
        var next :| Child(value, p[0], next) && Reaches(next, p[1..], child);
        assert Clean(next, depth + 1, probe);
      }
    }
  }

  lemma DigestedPasses(value: Json, d: Digests)
    ensures IsDigested(Digested(value, d))
  {
    var fields := Digested(value, d).fields;
    assert fields[0].key == "redacted_sha256" && fields[1..][0] == fields[1];
    assert Get(fields, "redacted_sha256") == Some(fields[0].value);
    assert fields[0].key[0] != fields[1].key[0];
    assert Get(fields[1..], "decoded_payload_sha256") == Some(fields[1].value);
  }

  lemma {:induction false} CleanFields(value: Json, n: nat, depth: nat, d: Digests, probe: Probe)
    requires value.Object? && n <= |value.fields| && depth <= MAX_DEPTH
    ensures FieldViolations(RedactExport(value, d).fields, n, depth, probe) == 0 <==>
      forall k :: 0 <= k < n && !Sensitive(value.fields[k].key) ==> Clean(value.fields[k].value, depth + 1, probe)
    decreases value, 0, n
  {
    hide Sensitive, Digested, IsDigested, Clean, Violations, Shrinks, PayloadsOf;
    if n > 0 {
      CleanFields(value, n - 1, depth, d, probe);
      var f := value.fields[n - 1];
      DigestedPasses(f.value, d);
      if !Sensitive(f.key) { VerifierFindsNothing(f.value, depth + 1, d, probe); }
    }
  }

  lemma {:induction false} CleanItems(value: Json, n: nat, depth: nat, d: Digests, probe: Probe)
    requires value.List? && n <= |value.items| && depth <= MAX_DEPTH
    ensures ItemViolations(RedactExport(value, d).items, n, depth, probe) == 0 <==>
      forall k :: 0 <= k < n ==> Clean(value.items[k], depth + 1, probe)
    decreases value, 0, n
  {
    hide Clean, Violations, Digested, Sensitive, Shrinks, PayloadsOf;
    if n > 0 {
      CleanItems(value, n - 1, depth, d, probe);
      VerifierFindsNothing(value.items[n - 1], depth + 1, d, probe);
    }
  }

  /** The verifier finds nothing in a redacted document exactly when everything outside its sensitive keys lies within
      the depth bound and no string there is a token or a base64 document with violations of its own. */
  lemma {:induction false} VerifierFindsNothing(value: Json, depth: nat, d: Digests, probe: Probe)
    ensures Violations(RedactExport(value, d), depth, probe) == 0 <==> Clean(value, depth, probe)
    decreases value, 1, 0
  {
    hide Clean, Sensitive, Quiet, Digested, Shrinks, PayloadsOf;
    if Clean(value, depth, probe) { CleanHere(value, depth, probe); }
    if depth > MAX_DEPTH {
    } else if value.Object? {
      CleanFields(value, |value.fields|, depth, d, probe);
      CleanObject(value, depth, probe);
    } else if value.List? {
      CleanItems(value, |value.items|, depth, d, probe);
      CleanList(value, depth, probe);
    } else {
      if value.Str? { QuietIff(value.s, depth, probe); }
      if value.Str? ==> Quiet(value.s, depth, probe) { CleanParent(value, depth, probe); }
    }
  }

  lemma CleanHere(value: Json, depth: nat, probe: Probe)
    requires Clean(value, depth, probe)
    ensures depth <= MAX_DEPTH && (value.Str? ==> Quiet(value.s, depth, probe))
  {
    hide Quiet;
    ReachesHere(value);
    var here: Path := [];
    assert depth + |here| == depth;
  }

  lemma QuietIff(s: string, depth: nat, probe: Probe)
    requires depth <= MAX_DEPTH
    ensures Violations(Str(s), depth, probe) == 0 <==> Quiet(s, depth, probe)
  {
  }

  lemma CleanObject(value: Json, depth: nat, probe: Probe)
    requires value.Object? && depth <= MAX_DEPTH
    ensures Clean(value, depth, probe) <==>
      forall k :: 0 <= k < |value.fields| && !Sensitive(value.fields[k].key) ==>
        Clean(value.fields[k].value, depth + 1, probe)
  {
    hide Clean, Sensitive;
    if Clean(value, depth, probe) {
      forall k | 0 <= k < |value.fields| && !Sensitive(value.fields[k].key)
        ensures Clean(value.fields[k].value, depth + 1, probe)
      {
        assert value.fields[k] == Field(value.fields[k].key, value.fields[k].value);
        CleanChild(value, depth, probe, Key(value.fields[k].key), value.fields[k].value);
      }
    } else if forall k :: 0 <= k < |value.fields| && !Sensitive(value.fields[k].key) ==>
      Clean(value.fields[k].value, depth + 1, probe)
    {
      CleanParent(value, depth, probe);
    }
  }

  lemma CleanList(value: Json, depth: nat, probe: Probe)
    requires value.List? && depth <= MAX_DEPTH
    ensures Clean(value, depth, probe) <==> forall k :: 0 <= k < |value.items| ==>
      Clean(value.items[k], depth + 1, probe)
  {
    hide Clean;
    if Clean(value, depth, probe) {
      forall k | 0 <= k < |value.items| ensures Clean(value.items[k], depth + 1, probe) {
        CleanChild(value, depth, probe, Index(k), value.items[k]);
      }
    } else if forall k :: 0 <= k < |value.items| ==> Clean(value.items[k], depth + 1, probe) {
      CleanParent(value, depth, probe);
    }
  }
}
