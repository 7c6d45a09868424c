/** What the redaction verifier finds, exactly, in any document and not only in a redacted one: `verify_redaction` of
    prototype/temporal-factory/scenarios/sf_attest.py. */
module RedactionFindings {
  import opened Prelude
  import opened Payloads
  import opened Redaction

  predicate HexText(value: Json) {
    value.Str? && |value.s| == 64 && forall c :: c in value.s ==> c in "0123456789abcdef"
  }

  /** The two fields redaction leaves, in either order: a digest, and a list of digests. */
  predicate Stub(value: Json) {
    && value.Object? && |value.fields| == 2
    && ((DigestField(value.fields[0]) && PayloadsField(value.fields[1]))
        || (PayloadsField(value.fields[0]) && DigestField(value.fields[1])))
  }

  predicate DigestField(f: Field) { f.key == "redacted_sha256" && HexText(f.value) }

  predicate PayloadsField(f: Field) {
    && f.key == "decoded_payload_sha256" && f.value.List?
    && forall i :: 0 <= i < |f.value.items| ==> HexText(f.value.items[i])
  }

  /** Every sensitive field of an object holds a stub. */
  predicate Covered(value: Json) {
    value.Object? ==>
      forall k :: 0 <= k < |value.fields| && Sensitive(value.fields[k].key) ==> Stub(value.fields[k].value)
  }

  /** Nothing wrong is shown: everything reached without passing a sensitive key lies within the depth bound and covers
      its own sensitive fields; no string there is a token; and what a string decodes to shows nothing wrong either. */
  ghost predicate Blameless(value: Json, depth: nat, probe: Probe)
    requires depth <= MAX_DEPTH + 1
    decreases MAX_DEPTH + 1 - depth, 1
  {
    && depth <= MAX_DEPTH
    && forall p, child :: Reaches(value, p, child) ==> depth + |p| <= MAX_DEPTH && Fine(child, depth + |p|, probe)
  }

  /** What a value answers for itself. */
  ghost predicate Fine(value: Json, depth: nat, probe: Probe)
    requires depth <= MAX_DEPTH
    decreases MAX_DEPTH + 1 - depth, 0
  {
    && Covered(value)
    && (value.Str? ==> !probe.isToken(value.s))
    && (value.Str? && Decoded(value.s, probe).Some? ==> Blameless(Decoded(value.s, probe).value, depth + 1, probe))
  }

  lemma HexIsDigest(value: Json)
    ensures HexText(value) <==> IsDigestString(value)
  {
    if value.Str? {
      forall k | 0 <= k < |value.s|
        ensures value.s[k] in "0123456789abcdef" <==> '0' <= value.s[k] <= '9' || 'a' <= value.s[k] <= 'f'
      {
        HexChar(value.s[k]);
      }
    }
  }

  lemma HexChar(c: char)
    ensures c in "0123456789abcdef" <==> '0' <= c <= '9' || 'a' <= c <= 'f'
  {
    var hex := "0123456789abcdef";
    if '0' <= c <= '9' { assert hex[c as int - '0' as int] == c; }
    if 'a' <= c <= 'f' { assert hex[10 + (c as int - 'a' as int)] == c; }
  }

  lemma StubIsDigested(value: Json)
    ensures Stub(value) <==> IsDigested(value)
  {
    hide HexText, IsDigestString;
    assert "redacted_sha256"[0] != "decoded_payload_sha256"[0];
    forall v ensures HexText(v) <==> IsDigestString(v) { HexIsDigest(v); }
    if value.Object? && |value.fields| == 2 {
      TwoFields(value.fields, "redacted_sha256");
      TwoFields(value.fields, "decoded_payload_sha256");
    }
  }

  lemma TwoFields(fields: seq<Field>, key: string)
    requires |fields| == 2
    ensures Get(fields, key) == if fields[0].key == key then Some(fields[0].value)
      else if fields[1].key == key then Some(fields[1].value) else None
  {
    assert fields[1..][0] == fields[1] && fields[1..][1..] == [];
    assert Get(fields[1..][1..], key) == None;
    assert Get(fields[1..], key) == if fields[1].key == key then Some(fields[1].value) else None;
  }

  lemma BlamelessHere(value: Json, depth: nat, probe: Probe)
    requires depth <= MAX_DEPTH + 1 && Blameless(value, depth, probe)
    ensures depth <= MAX_DEPTH && Fine(value, depth, probe)
  {
    hide Fine;
    ReachesHere(value);
    var here: Path := [];
    assert depth + |here| == depth;
  }

  lemma BlamelessChild(value: Json, depth: nat, probe: Probe, s: Step, next: Json)
    requires depth <= MAX_DEPTH && Blameless(value, depth, probe) && Child(value, s, next) && !SensitiveStep(s)
    ensures Blameless(next, depth + 1, probe)
  {
    hide Fine, Child, SensitiveStep;
    ReachesHere(next);
    ReachesBelow(value, s, next, [], next);
    assert |[s] + []| == 1;
    forall p, child | Reaches(next, p, child)
      ensures depth + 1 + |p| <= MAX_DEPTH && Fine(child, depth + 1 + |p|, probe)
    {
      ReachesBelow(value, s, next, p, child);
      assert |[s] + p| == 1 + |p|;
    }
  }

  lemma BlamelessParent(value: Json, depth: nat, probe: Probe)
    requires depth <= MAX_DEPTH && Fine(value, depth, probe)
    requires forall s, next :: Child(value, s, next) && !SensitiveStep(s) ==> Blameless(next, depth + 1, probe)
    ensures Blameless(value, depth, probe)
  {
    hide Fine, SensitiveStep, Child;
    forall p, child | Reaches(value, p, child)
      ensures depth + |p| <= MAX_DEPTH && Fine(child, depth + |p|, probe)
    {
      if p != [] {
        var next :| Child(value, p[0], next) && Reaches(next, p[1..], child);
        assert Blameless(next, depth + 1, probe) && |p| == |p[1..]| + 1;
      }
    }
  }

  lemma {:induction false} FieldsExactly(value: Json, n: nat, depth: nat, probe: Probe)
    requires value.Object? && n <= |value.fields| && depth <= MAX_DEPTH
    ensures FieldViolations(value.fields, n, depth, probe) == 0 <==>
      forall k :: 0 <= k < n ==>
        if Sensitive(value.fields[k].key) then Stub(value.fields[k].value)
        else Blameless(value.fields[k].value, depth + 1, probe)
    decreases MAX_DEPTH + 1 - depth, 0, n
  {
    hide Sensitive, IsDigested, Stub, Blameless, Violations;
    if n > 0 {
      FieldsExactly(value, n - 1, depth, probe);
      var f := value.fields[n - 1];
      StubIsDigested(f.value);
      if !Sensitive(f.key) { VerifierExactly(f.value, depth + 1, probe); }
    }
  }

  lemma {:induction false} ItemsExactly(value: Json, n: nat, depth: nat, probe: Probe)
    requires value.List? && n <= |value.items| && depth <= MAX_DEPTH
    ensures ItemViolations(value.items, n, depth, probe) == 0 <==>
      forall k :: 0 <= k < n ==> Blameless(value.items[k], depth + 1, probe)
    decreases MAX_DEPTH + 1 - depth, 0, n
  {
    hide Blameless, Violations;
    if n > 0 {
      ItemsExactly(value, n - 1, depth, probe);
      VerifierExactly(value.items[n - 1], depth + 1, probe);
    }
  }

  /** The verifier finds nothing in a document, redacted or not, exactly when nothing wrong is shown in it: no sensitive
      field without its stub, no token, nothing beyond the depth bound, and none of these in anything its strings
      decode to. */
  lemma {:induction false} VerifierExactly(value: Json, depth: nat, probe: Probe)
    requires depth <= MAX_DEPTH + 1
    ensures Violations(value, depth, probe) == 0 <==> Blameless(value, depth, probe)
    decreases MAX_DEPTH + 1 - depth, 1, 0
  {
    hide Blameless, Sensitive, Stub;
    if depth > MAX_DEPTH {
      TooDeep(value, depth, probe);
    } else {
      if Blameless(value, depth, probe) { BlamelessHere(value, depth, probe); }
      if value.Object? {
        FieldsExactly(value, |value.fields|, depth, probe);
        ObjectIsBlameless(value, depth, probe);
      } else if value.List? {
        ItemsExactly(value, |value.items|, depth, probe);
        ListIsBlameless(value, depth, probe);
      } else {
        if value.Str? && Decoded(value.s, probe).Some? {
          VerifierExactly(Decoded(value.s, probe).value, depth + 1, probe);
        }
        if Fine(value, depth, probe) { BlamelessParent(value, depth, probe); }
      }
    }
  }

  lemma TooDeep(value: Json, depth: nat, probe: Probe)
    requires depth == MAX_DEPTH + 1
    ensures !Blameless(value, depth, probe)
  {
  }

  lemma ObjectIsBlameless(value: Json, depth: nat, probe: Probe)
    requires value.Object? && depth <= MAX_DEPTH
    ensures Blameless(value, depth, probe) <==>
      forall k :: 0 <= k < |value.fields| ==>
        if Sensitive(value.fields[k].key) then Stub(value.fields[k].value)
        else Blameless(value.fields[k].value, depth + 1, probe)
  {
    hide Blameless, Sensitive, Stub;
    if Blameless(value, depth, probe) {
      BlamelessHere(value, depth, probe);
      forall k | 0 <= k < |value.fields| && !Sensitive(value.fields[k].key)
        ensures Blameless(value.fields[k].value, depth + 1, probe)
      {
        assert value.fields[k] == Field(value.fields[k].key, value.fields[k].value);
        BlamelessChild(value, depth, probe, Key(value.fields[k].key), value.fields[k].value);
      }
    } else if forall k :: 0 <= k < |value.fields| ==>
      if Sensitive(value.fields[k].key) then Stub(value.fields[k].value)
      else Blameless(value.fields[k].value, depth + 1, probe)
    {
      BlamelessParent(value, depth, probe);
    }
  }

  lemma ListIsBlameless(value: Json, depth: nat, probe: Probe)
    requires value.List? && depth <= MAX_DEPTH
    ensures Blameless(value, depth, probe) <==>
      forall k :: 0 <= k < |value.items| ==> Blameless(value.items[k], depth + 1, probe)
  {
    hide Blameless;
    if Blameless(value, depth, probe) {
      forall k | 0 <= k < |value.items| ensures Blameless(value.items[k], depth + 1, probe) {
        BlamelessChild(value, depth, probe, Index(k), value.items[k]);
      }
    } else if forall k :: 0 <= k < |value.items| ==> Blameless(value.items[k], depth + 1, probe) {
      BlamelessParent(value, depth, probe);
    }
  }

  // What redaction keeps.

  /** What redaction makes of a value: a leaf is kept, a list keeps its length, and an object keeps its keys in their
      order, with a stub in the place of each sensitive value: the digest of its JSON text and of its payloads. */
  ghost predicate Redacts(value: Json, out: Json, d: Digests) {
    match value
    case List(items) => out.List? && |out.items| == |items|
    case Object(fields) =>
      && out.Object? && |out.fields| == |fields|
      && forall k :: 0 <= k < |fields| ==>
        && out.fields[k].key == fields[k].key
        && (Sensitive(fields[k].key) ==> StubOf(out.fields[k].value, fields[k].value, d))
    case _ => out == value
  }

  ghost predicate StubOf(stub: Json, value: Json, d: Digests) {
    && Stub(stub) && stub.fields[0] == Field("redacted_sha256", Str(d.ofJson(value)))
    && stub.fields[1].value == List(DigestStrings(PayloadsOf(value, d), d))
  }

  lemma ExportRedacts(value: Json, d: Digests)
    ensures Redacts(value, RedactExport(value, d), d)
  {
    hide Stub, PayloadsOf, Shrinks, HexText;
    if value.Object? {
      forall k | 0 <= k < |value.fields| && Sensitive(value.fields[k].key)
        ensures StubOf(Digested(value.fields[k].value, d), value.fields[k].value, d)
      {
        DigestedPasses(value.fields[k].value, d);
        StubIsDigested(Digested(value.fields[k].value, d));
      }
    }
  }

  /** Redaction changes nothing outside the sensitive values: whatever a path reaches without passing a sensitive key,
      the same path reaches in the export, redacted itself. */
  lemma {:induction false} ExportKeepsTheRest(value: Json, p: Path, child: Json, d: Digests)
    requires Reaches(value, p, child)
    ensures Reaches(RedactExport(value, d), p, RedactExport(child, d)) && Redacts(child, RedactExport(child, d), d)
    decreases |p|
  {
    hide Redacts, Sensitive, Digested, Shrinks;
    ExportRedacts(child, d);
    if p != [] {
      var next :| Child(value, p[0], next) && Reaches(next, p[1..], child);
      ExportKeepsTheRest(next, p[1..], child, d);
      ExportOfChild(value, p[0], next, d);
    }
  }

  lemma ExportOfChild(value: Json, s: Step, next: Json, d: Digests)
    requires Child(value, s, next) && !SensitiveStep(s)
    ensures Child(RedactExport(value, d), s, RedactExport(next, d))
  {
    hide Sensitive, Digested, Shrinks;
    if s.Key? {
      var k :| 0 <= k < |value.fields| && value.fields[k] == Field(s.key, next);
      assert RedactExport(value, d).fields[k] == Field(s.key, RedactExport(next, d));
    }
  }
}
