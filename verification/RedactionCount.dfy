/** What the redaction verifier counts: each violation once. `verify_redaction` of
    prototype/temporal-factory/scenarios/sf_attest.py. */
module RedactionCount {
  import opened Prelude
  import opened Payloads
  import opened Redaction
  import opened RedactionFindings

  /** Path p leads, past no sensitive field, to one violation: a value beyond the depth bound, a sensitive field without
      its stub, or a token. A path may lead on within what a string decodes to. */
  predicate Offends(value: Json, depth: nat, probe: Probe, p: seq<Hop>)
    decreases |p|
  {
    if depth > 20 then p == []
    else match value
      case Object(fields) =>
        && p != [] && p[0].Into? && p[0].field < |fields|
        && var f := fields[p[0].field];
           if Sensitive(f.key) then |p| == 1 && !Stub(f.value) else Offends(f.value, depth + 1, probe, p[1..])
      case List(items) =>
        p != [] && p[0].Nth? && p[0].item < |items| && Offends(items[p[0].item], depth + 1, probe, p[1..])
      case Str(s) =>
        if p == [] then probe.isToken(s)
        else p[0].Within? && Decoded(s, probe).Some? && Offends(Decoded(s, probe).value, depth + 1, probe, p[1..])
      case _ => false
  }

  /** The violations in the order of the walk. Only their paths matter. */
  function Offences(value: Json, depth: nat, probe: Probe): seq<Site>
    decreases MAX_DEPTH + 1 - depth, 1, 0
  {
    if depth > MAX_DEPTH then [Site([], "")]
    else match value
      case Object(fields) => FieldOffences(fields, |fields|, depth, probe)
      case List(items) => ItemOffences(items, |items|, depth, probe)
      case Str(s) =>
        (if probe.isToken(s) then [Site([], "")] else []) +
        (match Decoded(s, probe) case Some(nested) => Below(Within, Offences(nested, depth + 1, probe)) case None => [])
      case _ => []
  }

  function FieldOffences(fields: seq<Field>, n: nat, depth: nat, probe: Probe): seq<Site>
    requires n <= |fields| && depth <= MAX_DEPTH
    decreases MAX_DEPTH + 1 - depth, 0, n
  {
    if n == 0 then [] else FieldOffences(fields, n - 1, depth, probe) + FieldOffence(fields, n - 1, depth, probe)
  }

  function FieldOffence(fields: seq<Field>, k: nat, depth: nat, probe: Probe): seq<Site>
    requires k < |fields| && depth <= MAX_DEPTH
    decreases MAX_DEPTH + 1 - depth, 0, k
  {
    if Sensitive(fields[k].key) then (if Stub(fields[k].value) then [] else [Site([Into(k)], "")])
    else Below(Into(k), Offences(fields[k].value, depth + 1, probe))
  }

  function ItemOffences(items: seq<Json>, n: nat, depth: nat, probe: Probe): seq<Site>
    requires n <= |items| && depth <= MAX_DEPTH
    decreases MAX_DEPTH + 1 - depth, 0, n
  {
    if n == 0 then []
    else ItemOffences(items, n - 1, depth, probe) + Below(Nth(n - 1), Offences(items[n - 1], depth + 1, probe))
  }

  // As many as the verifier counts.

  lemma {:induction false} OffencesAreCounted(value: Json, depth: nat, probe: Probe)
    requires depth <= MAX_DEPTH + 1
    ensures |Offences(value, depth, probe)| == Violations(value, depth, probe)
    decreases MAX_DEPTH + 1 - depth, 1, 0
  {
    hide Sensitive, IsDigested, Stub;
    if depth <= MAX_DEPTH {
      if value.Object? { FieldsAreCounted(value.fields, |value.fields|, depth, probe); }
      else if value.List? { ItemsAreCounted(value.items, |value.items|, depth, probe); }
      else if value.Str? && Decoded(value.s, probe).Some? {
        OffencesAreCounted(Decoded(value.s, probe).value, depth + 1, probe);
      }
    }
  }

  lemma {:induction false} FieldsAreCounted(fields: seq<Field>, n: nat, depth: nat, probe: Probe)
    requires n <= |fields| && depth <= MAX_DEPTH
    ensures |FieldOffences(fields, n, depth, probe)| == FieldViolations(fields, n, depth, probe)
    decreases MAX_DEPTH + 1 - depth, 0, n
  {
    hide Sensitive, IsDigested, Stub, Offences, Violations;
    if n > 0 {
      FieldsAreCounted(fields, n - 1, depth, probe);
      StubIsDigested(fields[n - 1].value);
      OffencesAreCounted(fields[n - 1].value, depth + 1, probe);
    }
  }

  lemma {:induction false} ItemsAreCounted(items: seq<Json>, n: nat, depth: nat, probe: Probe)
    requires n <= |items| && depth <= MAX_DEPTH
    ensures |ItemOffences(items, n, depth, probe)| == ItemViolations(items, n, depth, probe)
    decreases MAX_DEPTH + 1 - depth, 0, n
  {
    hide Offences, Violations;
    if n > 0 {
      ItemsAreCounted(items, n - 1, depth, probe);
      OffencesAreCounted(items[n - 1], depth + 1, probe);
    }
  }

  // All different, in order.

  lemma {:induction false} OffencesInOrder(value: Json, depth: nat, probe: Probe)
    requires depth <= MAX_DEPTH + 1
    ensures Ordered(Offences(value, depth, probe))
    decreases MAX_DEPTH + 1 - depth, 1, 0
  {
    hide Ordered, Before;
    NothingOrdered();
    if depth <= MAX_DEPTH {
      if value.Object? { FieldsInOrder(value.fields, |value.fields|, depth, probe); }
      else if value.List? { ItemsInOrder(value.items, |value.items|, depth, probe); }
      else if value.Str? && Decoded(value.s, probe).Some? {
        var nested := Offences(Decoded(value.s, probe).value, depth + 1, probe);
        OffencesInOrder(Decoded(value.s, probe).value, depth + 1, probe);
        OrderedBelow(Within, nested);
        TokenComesFirst(Below(Within, nested));
      } else {
        TokenComesFirst([]);
      }
    }
  }

  lemma TokenComesFirst(sites: seq<Site>)
    requires Ordered(sites) && forall s :: s in sites ==> s.path != []
    ensures Ordered([Site([], "")] + sites) && Ordered([] + sites)
  {
    assert [] + sites == sites;
    NothingOrdered();
    OrderedJoin([Site([], "")], sites);
  }

  lemma {:induction false} FieldsInOrder(fields: seq<Field>, n: nat, depth: nat, probe: Probe)
    requires n <= |fields| && depth <= MAX_DEPTH
    ensures Ordered(FieldOffences(fields, n, depth, probe))
    ensures forall s :: s in FieldOffences(fields, n, depth, probe) ==>
      s.path != [] && s.path[0].Into? && s.path[0].field < n
    decreases MAX_DEPTH + 1 - depth, 0, n
  {
    hide Ordered, Below, Offences, Sensitive, Stub;
    NothingOrdered();
    if n > 0 {
      FieldsInOrder(fields, n - 1, depth, probe);
      OffencesInOrder(fields[n - 1].value, depth + 1, probe);
      OrderedBelow(Into(n - 1), Offences(fields[n - 1].value, depth + 1, probe));
      OrderedJoin(FieldOffences(fields, n - 1, depth, probe), FieldOffence(fields, n - 1, depth, probe));
    }
  }

  lemma {:induction false} ItemsInOrder(items: seq<Json>, n: nat, depth: nat, probe: Probe)
    requires n <= |items| && depth <= MAX_DEPTH
    ensures Ordered(ItemOffences(items, n, depth, probe))
    ensures forall s :: s in ItemOffences(items, n, depth, probe) ==>
      s.path != [] && s.path[0].Nth? && s.path[0].item < n
    decreases MAX_DEPTH + 1 - depth, 0, n
  {
    hide Ordered, Below, Offences;
    NothingOrdered();
    if n > 0 {
      ItemsInOrder(items, n - 1, depth, probe);
      OffencesInOrder(items[n - 1], depth + 1, probe);
      OrderedBelow(Nth(n - 1), Offences(items[n - 1], depth + 1, probe));
      OrderedJoin(ItemOffences(items, n - 1, depth, probe),
                  Below(Nth(n - 1), Offences(items[n - 1], depth + 1, probe)));
    }
  }

  // The violations, and no others.

  lemma BelowMember(hop: Hop, sites: seq<Site>, p: seq<Hop>)
    ensures Site(p, "") in Below(hop, sites) <==> p != [] && p[0] == hop && Site(p[1..], "") in sites
  {
    if Site(p, "") in Below(hop, sites) {
      var k :| 0 <= k < |sites| && Site(p, "") == Site([hop] + sites[k].path, sites[k].raw);
      assert p[1..] == sites[k].path && sites[k] in sites;
    }
    if p != [] && p[0] == hop && Site(p[1..], "") in sites { SiteBelow(hop, sites, p, ""); }
  }

  lemma {:induction false} OffencesExactly(value: Json, depth: nat, probe: Probe, p: seq<Hop>)
    requires depth <= MAX_DEPTH + 1
    ensures Site(p, "") in Offences(value, depth, probe) <==> Offends(value, depth, probe, p)
    decreases MAX_DEPTH + 1 - depth, 1, 0
  {
    hide Sensitive, Stub, Below;
    if depth <= MAX_DEPTH {
      if value.Object? { FieldOffencesExactly(value, |value.fields|, depth, probe, p); }
      else if value.List? { ItemOffencesExactly(value, |value.items|, depth, probe, p); }
      else if value.Str? && Decoded(value.s, probe).Some? {
        BelowMember(Within, Offences(Decoded(value.s, probe).value, depth + 1, probe), p);
        if p != [] { OffencesExactly(Decoded(value.s, probe).value, depth + 1, probe, p[1..]); }
      }
    }
  }

  lemma {:induction false} FieldOffencesExactly(value: Json, n: nat, depth: nat, probe: Probe, p: seq<Hop>)
    requires value.Object? && n <= |value.fields| && depth <= MAX_DEPTH
    ensures Site(p, "") in FieldOffences(value.fields, n, depth, probe) <==>
      Offends(value, depth, probe, p) && p[0].field < n
    decreases MAX_DEPTH + 1 - depth, 0, n
  {
    hide Sensitive, Stub, Below, Offences;
    if n > 0 {
      var f := value.fields[n - 1];
      FieldOffencesExactly(value, n - 1, depth, probe, p);
      BelowMember(Into(n - 1), Offences(f.value, depth + 1, probe), p);
      if p != [] { OffencesExactly(f.value, depth + 1, probe, p[1..]); }
      assert |p| == 1 && p[0] == Into(n - 1) ==> p == [Into(n - 1)];
    }
  }

  lemma {:induction false} ItemOffencesExactly(value: Json, n: nat, depth: nat, probe: Probe, p: seq<Hop>)
    requires value.List? && n <= |value.items| && depth <= MAX_DEPTH
    ensures Site(p, "") in ItemOffences(value.items, n, depth, probe) <==>
      Offends(value, depth, probe, p) && p[0].item < n
    decreases MAX_DEPTH + 1 - depth, 0, n
  {
    hide Below, Offences;
    if n > 0 {
      ItemOffencesExactly(value, n - 1, depth, probe, p);
      BelowMember(Nth(n - 1), Offences(value.items[n - 1], depth + 1, probe), p);
      if p != [] { OffencesExactly(value.items[n - 1], depth + 1, probe, p[1..]); }
    }
  }

  /** The verifier's count is the number of violations, each counted once: there is a list of that many paths, in strict
      order and so all different, that holds exactly the paths that lead to a violation. */
  lemma CountsEachOnce(document: Json, probe: Probe) returns (paths: seq<Site>)
    ensures |paths| == Violations(document, 0, probe) && Ordered(paths)
    ensures forall p :: Offends(document, 0, probe, p) <==> Site(p, "") in paths
  {
    hide Offends, Violations, Offences;
    paths := Offences(document, 0, probe);
    OffencesAreCounted(document, 0, probe);
    OffencesInOrder(document, 0, probe);
    forall p ensures Offends(document, 0, probe, p) <==> Site(p, "") in paths {
      OffencesExactly(document, 0, probe, p);
    }
  }
}
