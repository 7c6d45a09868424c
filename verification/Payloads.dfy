/** What stands for a redacted value: `_decoded_payloads` of
    prototype/temporal-factory/scenarios/single_factory.py finds the base64 payloads of a value, those within JSON
    payloads included, and each is digested. */
module Payloads {
  import opened Prelude

  datatype Field = Field(key: string, value: Json)

  /** A JSON document; an object's fields in insertion order. */
  datatype Json = Null | Bool(b: bool) | Number(text: string) | Str(s: string) | List(items: seq<Json>)
    | Object(fields: seq<Field>)

  predicate HexDigest(s: string) {
    |s| == 64 && forall k :: 0 <= k < |s| ==> '0' <= s[k] <= '9' || 'a' <= s[k] <= 'f'
  }

  /** SHA-256, as hexadecimal text. */
  type Hex64 = s: string | HexDigest(s) witness seq(64, _ => '0')

  /** A lower bound on the length of a value's JSON text. */
  function Weight(value: Json): nat
    decreases value, 1, 0
  {
    match value
    case Object(fields) => 1 + FieldsWeight(value, |fields|)
    case List(items) => 1 + ItemsWeight(value, |items|)
    case Str(s) => 1 + |s|
    case _ => 1
  }

  function FieldsWeight(value: Json, n: nat): nat
    requires value.Object? && n <= |value.fields|
    decreases value, 0, n
  {
    if n == 0 then 0 else FieldsWeight(value, n - 1) + Weight(value.fields[n - 1].value)
  }

  function ItemsWeight(value: Json, n: nat): nat
    requires value.List? && n <= |value.items|
    decreases value, 0, n
  {
    if n == 0 then 0 else ItemsWeight(value, n - 1) + Weight(value.items[n - 1])
  }

  /** Digests of a value's JSON text and of raw bytes, `base64.b64decode` and `json.loads`. */
  datatype Functions = Functions(
    ofJson: Json -> Hex64, ofRaw: string -> Hex64, decode: string -> Option<string>, loads: string -> Option<Json>)

  /** Decoding does not lengthen, and a document is no longer than its text. */
  ghost predicate Shrinks(f: Functions) {
    && (forall s :: f.decode(s).Some? ==> |f.decode(s).value| <= |s|)
    && (forall raw :: f.loads(raw).Some? ==> Weight(f.loads(raw).value) <= |raw|)
  }

  const NO_CODING: Functions := Functions(_ => seq(64, _ => '0'), _ => seq(64, _ => '0'), _ => None, _ => None)

  type Digests = f: Functions | Shrinks(f) witness NO_CODING

  /** `value.get(key)` among an object's fields. */
  function Get(fields: seq<Field>, key: string): Option<Json> {
    if fields == [] then None
    else if fields[0].key == key then Some(fields[0].value)
    else Get(fields[1..], key)
  }

  /** The payload an object carries itself: its "data", decoded. */
  function Raw(value: Json, d: Digests): Option<string> {
    if !value.Object? then None
    else match Get(value.fields, "data") case Some(Str(s)) => d.decode(s) case _ => None
  }

  lemma {:induction false} GetIsField(fields: seq<Field>, key: string)
    ensures Get(fields, key).Some? ==>
      exists k :: 0 <= k < |fields| && fields[k].key == key && fields[k].value == Get(fields, key).value
  {
    if fields != [] && fields[0].key != key {
      GetIsField(fields[1..], key);
      if Get(fields[1..], key).Some? {
        var k :| 0 <= k < |fields[1..]| && fields[1..][k].key == key && fields[1..][k].value == Get(fields, key).value;
        assert fields[k + 1] == fields[1..][k];
      }
    }
  }

  lemma {:induction false} FieldIsLighter(value: Json, n: nat, k: nat)
    requires value.Object? && k < n <= |value.fields|
    ensures Weight(value.fields[k].value) <= FieldsWeight(value, n)
  {
    if k < n - 1 { FieldIsLighter(value, n - 1, k); }
  }

  lemma {:induction false} ItemIsLighter(value: Json, n: nat, k: nat)
    requires value.List? && k < n <= |value.items|
    ensures Weight(value.items[k]) <= ItemsWeight(value, n)
  {
    if k < n - 1 { ItemIsLighter(value, n - 1, k); }
  }

  lemma RawIsShort(value: Json, d: Digests)
    requires Raw(value, d).Some?
    ensures |Raw(value, d).value| < Weight(value)
  {
    GetIsField(value.fields, "data");
    var k :| 0 <= k < |value.fields| && value.fields[k].value == Get(value.fields, "data").value;
    FieldIsLighter(value, |value.fields|, k);
  }

  /** `_decoded_payloads`: an object's own payload, those within it, then those of its children. */
  function PayloadsOf(value: Json, d: Digests): seq<string>
    decreases Weight(value), 1, 0
  {
    match value
    case Object(fields) => OwnPayloads(value, d) + FieldPayloads(value, |fields|, d)
    case List(items) => ItemPayloads(value, |items|, d)
    case _ => []
  }

  function OwnPayloads(value: Json, d: Digests): seq<string>
    decreases Weight(value), 0, 0
  {
    match Raw(value, d)
    case None => []
    case Some(raw) =>
      RawIsShort(value, d);
      [raw] + match d.loads(raw) case Some(nested) => PayloadsOf(nested, d) case None => []
  }

  function FieldPayloads(value: Json, n: nat, d: Digests): seq<string>
    requires value.Object? && n <= |value.fields|
    decreases Weight(value), 0, n
  {
    if n == 0 then []
    else
      FieldIsLighter(value, |value.fields|, n - 1);
      FieldPayloads(value, n - 1, d) + PayloadsOf(value.fields[n - 1].value, d)
  }

  function ItemPayloads(value: Json, n: nat, d: Digests): seq<string>
    requires value.List? && n <= |value.items|
    decreases Weight(value), 0, n
  {
    if n == 0 then []
    else
      ItemIsLighter(value, |value.items|, n - 1);
      ItemPayloads(value, n - 1, d) + PayloadsOf(value.items[n - 1], d)
  }

  function DigestStrings(raws: seq<string>, d: Digests): seq<Json> {
    seq(|raws|, k requires 0 <= k < |raws| => Str(d.ofRaw(raws[k])))
  }

  /** What stands for a redacted value. */
  function Digested(value: Json, d: Digests): Json {
    var digests := DigestStrings(PayloadsOf(value, d), d);
    Object([Field("redacted_sha256", Str(d.ofJson(value))), Field("decoded_payload_sha256", List(digests))])
  }

  /** The generator `_decoded_payloads`, run to its end. */
  method Collect(value: Json, d: Digests) returns (raws: seq<string>)
    ensures raws == PayloadsOf(value, d)
    decreases Weight(value), 1
  {
    hide Weight, Raw, OwnPayloads, FieldPayloads, ItemPayloads;
    if value.Object? {
      var own := CollectOwn(value, d);
      var below := CollectFields(value, d);
      raws := own + below;
    } else if value.List? {
      raws := CollectItems(value, d);
    } else {
      raws := [];
    }
  }

  method CollectOwn(value: Json, d: Digests) returns (raws: seq<string>)
    ensures raws == OwnPayloads(value, d)
    decreases Weight(value), 0
  {
    hide Weight, Raw, PayloadsOf;
    var raw := Raw(value, d);
    if raw.None? { return []; }
    raws := [raw.value];
    RawIsShort(value, d);
    var nested := d.loads(raw.value);
    if nested.Some? {
      var more := Collect(nested.value, d);
      raws := raws + more;
    }
  }

  method CollectFields(value: Json, d: Digests) returns (raws: seq<string>)
    requires value.Object?
    ensures raws == FieldPayloads(value, |value.fields|, d)
    decreases Weight(value), 0
  {
    hide PayloadsOf;
    raws := [];
    for k := 0 to |value.fields|
      invariant raws == FieldPayloads(value, k, d)
    {
      FieldIsLighter(value, |value.fields|, k);
      var more := Collect(value.fields[k].value, d);
      raws := raws + more;
    }
  }

  method CollectItems(value: Json, d: Digests) returns (raws: seq<string>)
    requires value.List?
    ensures raws == ItemPayloads(value, |value.items|, d)
    decreases Weight(value), 0
  {
    hide PayloadsOf;
    raws := [];
    for k := 0 to |value.items|
      invariant raws == ItemPayloads(value, k, d)
    {
      ItemIsLighter(value, |value.items|, k);
      var more := Collect(value.items[k], d);
      raws := raws + more;
    }
  }

  /** single_factory.py:380-385. */
  method Digest(value: Json, d: Digests) returns (digested: Json)
    ensures digested == Digested(value, d)
  {
    hide PayloadsOf;
    var raws := Collect(value, d);
    var digests: seq<Json> := [];
    for k := 0 to |raws|
      invariant digests == DigestStrings(raws[..k], d)
    {
      digests := digests + [Str(d.ofRaw(raws[k]))];
    }
    assert raws[..|raws|] == raws;
    digested := Object([Field("redacted_sha256", Str(d.ofJson(value))),
      Field("decoded_payload_sha256", List(digests))]);
  }

  // Where the payloads are.

  /** From a value to a part of it, or to the document its payload decodes to. */
  datatype Hop = Into(field: nat) | Nth(item: nat) | Within

  ghost predicate Hops(value: Json, hop: Hop, next: Json, d: Digests) {
    match hop
    case Into(k) => value.Object? && k < |value.fields| && next == value.fields[k].value
    case Nth(k) => value.List? && k < |value.items| && next == value.items[k]
    case Within => Raw(value, d).Some? && d.loads(Raw(value, d).value) == Some(next)
  }

  /** The value that a path leads to carries payload `raw`. */
  ghost predicate Carries(value: Json, p: seq<Hop>, raw: string, d: Digests)
    decreases |p|
  {
    if p == [] then Raw(value, d) == Some(raw)
    else exists next :: Hops(value, p[0], next, d) && Carries(next, p[1..], raw, d)
  }

  datatype Site = Site(path: seq<Hop>, raw: string)

  function Below(hop: Hop, sites: seq<Site>): seq<Site> {
    seq(|sites|, k requires 0 <= k < |sites| => Site([hop] + sites[k].path, sites[k].raw))
  }

  /** The payloads of a value, each with its path, in the order of `PayloadsOf`. */
  function Sites(value: Json, d: Digests): seq<Site>
    decreases Weight(value), 1, 0
  {
    match value
    case Object(fields) => OwnSites(value, d) + FieldSites(value, |fields|, d)
    case List(items) => ItemSites(value, |items|, d)
    case _ => []
  }

  function OwnSites(value: Json, d: Digests): seq<Site>
    decreases Weight(value), 0, 0
  {
    match Raw(value, d)
    case None => []
    case Some(raw) =>
      RawIsShort(value, d);
      [Site([], raw)] + match d.loads(raw) case Some(nested) => Below(Within, Sites(nested, d)) case None => []
  }

  function FieldSites(value: Json, n: nat, d: Digests): seq<Site>
    requires value.Object? && n <= |value.fields|
    decreases Weight(value), 0, n
  {
    if n == 0 then []
    else
      FieldIsLighter(value, |value.fields|, n - 1);
      FieldSites(value, n - 1, d) + Below(Into(n - 1), Sites(value.fields[n - 1].value, d))
  }

  function ItemSites(value: Json, n: nat, d: Digests): seq<Site>
    requires value.List? && n <= |value.items|
    decreases Weight(value), 0, n
  {
    if n == 0 then []
    else
      ItemIsLighter(value, |value.items|, n - 1);
      ItemSites(value, n - 1, d) + Below(Nth(n - 1), Sites(value.items[n - 1], d))
  }

  function Raws(sites: seq<Site>): seq<string> {
    seq(|sites|, k requires 0 <= k < |sites| => sites[k].raw)
  }

  lemma RawsJoin(a: seq<Site>, b: seq<Site>, hop: Hop)
    ensures Raws(a + b) == Raws(a) + Raws(b) && Raws(Below(hop, a)) == Raws(a)
  {
  }

  lemma {:induction false} RawsOfSites(value: Json, d: Digests)
    ensures Raws(Sites(value, d)) == PayloadsOf(value, d)
    decreases Weight(value), 1, 0
  {
    hide Weight, Raws;
    if value.Object? {
      RawsOfOwn(value, d);
      RawsOfFields(value, |value.fields|, d);
      RawsJoin(OwnSites(value, d), FieldSites(value, |value.fields|, d), Within);
    } else if value.List? {
      RawsOfItems(value, |value.items|, d);
    } else {
      NoRaws();
    }
  }

  lemma NoRaws()
    ensures Raws([]) == [] && forall p, raw: string :: Raws([Site(p, raw)]) == [raw]
  {
  }

  lemma {:induction false} RawsOfOwn(value: Json, d: Digests)
    ensures Raws(OwnSites(value, d)) == OwnPayloads(value, d)
    decreases Weight(value), 0, 0
  {
    hide Weight, Raws, Raw, Below, Sites, PayloadsOf;
    NoRaws();
    var raw := Raw(value, d);
    if raw.Some? {
      RawIsShort(value, d);
      var nested := d.loads(raw.value);
      if nested.Some? {
        RawsOfSites(nested.value, d);
        RawsJoin(Sites(nested.value, d), [], Within);
        RawsJoin([Site([], raw.value)], Below(Within, Sites(nested.value, d)), Within);
      } else {
        assert OwnSites(value, d) == [Site([], raw.value)] && OwnPayloads(value, d) == [raw.value];
      }
    }
  }

  lemma {:induction false} RawsOfFields(value: Json, n: nat, d: Digests)
    requires value.Object? && n <= |value.fields|
    ensures Raws(FieldSites(value, n, d)) == FieldPayloads(value, n, d)
    decreases Weight(value), 0, n
  {
    hide Weight, Raws, Below, Sites, PayloadsOf;
    NoRaws();
    if n > 0 {
      var child := value.fields[n - 1].value;
      FieldIsLighter(value, |value.fields|, n - 1);
      WeightOfParts(value);
      RawsOfFields(value, n - 1, d);
      RawsOfSites(child, d);
      RawsJoin(Sites(child, d), [], Into(n - 1));
      RawsJoin(FieldSites(value, n - 1, d), Below(Into(n - 1), Sites(child, d)), Within);
    }
  }

  lemma {:induction false} RawsOfItems(value: Json, n: nat, d: Digests)
    requires value.List? && n <= |value.items|
    ensures Raws(ItemSites(value, n, d)) == ItemPayloads(value, n, d)
    decreases Weight(value), 0, n
  {
    hide Weight, Raws, Below, Sites, PayloadsOf;
    NoRaws();
    if n > 0 {
      var child := value.items[n - 1];
      ItemIsLighter(value, |value.items|, n - 1);
      WeightOfParts(value);
      RawsOfItems(value, n - 1, d);
      RawsOfSites(child, d);
      RawsJoin(Sites(child, d), [], Nth(n - 1));
      RawsJoin(ItemSites(value, n - 1, d), Below(Nth(n - 1), Sites(child, d)), Within);
    }
  }

  lemma WeightOfParts(value: Json)
    ensures value.Object? ==> Weight(value) == 1 + FieldsWeight(value, |value.fields|)
    ensures value.List? ==> Weight(value) == 1 + ItemsWeight(value, |value.items|)
  {
  }

  // Every site carries its payload, and every payload carried has its site.

  lemma CarriedBelow(value: Json, hop: Hop, next: Json, sites: seq<Site>, s: Site, d: Digests)
    requires Hops(value, hop, next, d) && s in Below(hop, sites)
    requires forall x :: x in sites ==> Carries(next, x.path, x.raw, d)
    ensures Carries(value, s.path, s.raw, d)
  {
    hide Hops;
    var k :| 0 <= k < |sites| && s == Site([hop] + sites[k].path, sites[k].raw);
    assert sites[k] in sites && s.path[1..] == sites[k].path;
  }

  lemma {:induction false} SitesCarry(value: Json, s: Site, d: Digests)
    requires s in Sites(value, d)
    ensures Carries(value, s.path, s.raw, d)
    decreases Weight(value), 1, 0
  {
    hide Weight, Carries, Below;
    if value.Object? {
      if s in OwnSites(value, d) { OwnSitesCarry(value, s, d); } else { FieldSitesCarry(value, |value.fields|, s, d); }
    } else {
      ItemSitesCarry(value, |value.items|, s, d);
    }
  }

  lemma {:induction false} OwnSitesCarry(value: Json, s: Site, d: Digests)
    requires s in OwnSites(value, d)
    ensures Carries(value, s.path, s.raw, d)
    decreases Weight(value), 0, 0
  {
    hide Weight, Raw, Below, Sites;
    var raw := Raw(value, d).value;
    RawIsShort(value, d);
    if s != Site([], raw) {
      var nested := d.loads(raw).value;
      forall x | x in Sites(nested, d) ensures Carries(nested, x.path, x.raw, d) { SitesCarry(nested, x, d); }
      CarriedBelow(value, Within, nested, Sites(nested, d), s, d);
    }
  }

  lemma {:induction false} FieldSitesCarry(value: Json, n: nat, s: Site, d: Digests)
    requires value.Object? && n <= |value.fields| && s in FieldSites(value, n, d)
    ensures Carries(value, s.path, s.raw, d)
    decreases Weight(value), 0, n
  {
    hide Weight, Carries, Below, Sites;
    if s in FieldSites(value, n - 1, d) {
      FieldSitesCarry(value, n - 1, s, d);
    } else {
      var child := value.fields[n - 1].value;
      FieldIsLighter(value, |value.fields|, n - 1);
      WeightOfParts(value);
      forall x | x in Sites(child, d) ensures Carries(child, x.path, x.raw, d) { SitesCarry(child, x, d); }
      CarriedBelow(value, Into(n - 1), child, Sites(child, d), s, d);
    }
  }

  lemma {:induction false} ItemSitesCarry(value: Json, n: nat, s: Site, d: Digests)
    requires value.List? && n <= |value.items| && s in ItemSites(value, n, d)
    ensures Carries(value, s.path, s.raw, d)
    decreases Weight(value), 0, n
  {
    hide Weight, Carries, Below, Sites;
    if s in ItemSites(value, n - 1, d) {
      ItemSitesCarry(value, n - 1, s, d);
    } else {
      var child := value.items[n - 1];
      ItemIsLighter(value, |value.items|, n - 1);
      WeightOfParts(value);
      forall x | x in Sites(child, d) ensures Carries(child, x.path, x.raw, d) { SitesCarry(child, x, d); }
      CarriedBelow(value, Nth(n - 1), child, Sites(child, d), s, d);
    }
  }

  lemma SiteBelow(hop: Hop, sites: seq<Site>, p: seq<Hop>, raw: string)
    requires p != [] && p[0] == hop && Site(p[1..], raw) in sites
    ensures Site(p, raw) in Below(hop, sites)
  {
    var k :| 0 <= k < |sites| && sites[k] == Site(p[1..], raw);
    assert [hop] + p[1..] == p && Below(hop, sites)[k] == Site(p, raw);
  }

  lemma {:induction false} FieldSiteThere(value: Json, n: nat, k: nat, s: Site, d: Digests)
    requires value.Object? && k < n <= |value.fields| && s in Below(Into(k), Sites(value.fields[k].value, d))
    ensures s in FieldSites(value, n, d)
  {
    hide Below, Sites;
    if k < n - 1 { FieldSiteThere(value, n - 1, k, s, d); }
  }

  lemma {:induction false} ItemSiteThere(value: Json, n: nat, k: nat, s: Site, d: Digests)
    requires value.List? && k < n <= |value.items| && s in Below(Nth(k), Sites(value.items[k], d))
    ensures s in ItemSites(value, n, d)
  {
    hide Below, Sites;
    if k < n - 1 { ItemSiteThere(value, n - 1, k, s, d); }
  }

  lemma OwnSiteThere(value: Json, next: Json, s: Site, d: Digests)
    requires Hops(value, Within, next, d) && s in Below(Within, Sites(next, d))
    ensures value.Object? && s in OwnSites(value, d)
  {
    hide Below, Sites;
  }

  lemma OwnSiteHere(value: Json, raw: string, d: Digests)
    requires Raw(value, d) == Some(raw)
    ensures value.Object? && Site([], raw) in OwnSites(value, d)
  {
    assert OwnSites(value, d)[0] == Site([], raw);
  }

  lemma {:induction false} CarriedHasSite(value: Json, p: seq<Hop>, raw: string, d: Digests)
    requires Carries(value, p, raw, d)
    ensures Site(p, raw) in Sites(value, d)
    decreases |p|
  {
    hide Below, Raw, Weight, OwnSites;
    if p == [] {
      OwnSiteHere(value, raw, d);
    } else {
      var next :| Hops(value, p[0], next, d) && Carries(next, p[1..], raw, d);
      CarriedHasSite(next, p[1..], raw, d);
      SiteBelow(p[0], Sites(next, d), p, raw);
      match p[0] {
        case Into(k) => FieldSiteThere(value, |value.fields|, k, Site(p, raw), d);
        case Nth(k) => ItemSiteThere(value, |value.items|, k, Site(p, raw), d);
        case Within => OwnSiteThere(value, next, Site(p, raw), d);
      }
    }
  }

  // And it has one, in order.

  /** A value's own payload comes before what lies within it, that before its parts, and its parts in their order. */
  predicate Before(p: seq<Hop>, q: seq<Hop>)
    decreases |p|
  {
    q != [] && (p == [] || HopBefore(p[0], q[0]) || (p[0] == q[0] && Before(p[1..], q[1..])))
  }

  predicate HopBefore(a: Hop, b: Hop) {
    match a
    case Within => !b.Within?
    case Into(k) => b.Into? && k < b.field
    case Nth(k) => b.Nth? && k < b.item
  }

  predicate Ordered(sites: seq<Site>) {
    forall i, k :: 0 <= i < k < |sites| ==> Before(sites[i].path, sites[k].path)
  }

  lemma {:induction false} BeforeIsProper(p: seq<Hop>)
    ensures !Before(p, p)
  {
    if p != [] { BeforeIsProper(p[1..]); }
  }

  lemma OrderedJoin(a: seq<Site>, b: seq<Site>)
    requires Ordered(a) && Ordered(b) && forall x, y :: x in a && y in b ==> Before(x.path, y.path)
    ensures Ordered(a + b)
  {
    hide Before;
    forall i, k | 0 <= i < k < |a + b| ensures Before((a + b)[i].path, (a + b)[k].path) {
      if i < |a| <= k { assert a[i] in a && b[k - |a|] in b; }
    }
  }

  lemma OrderedBelow(hop: Hop, sites: seq<Site>)
    requires Ordered(sites)
    ensures Ordered(Below(hop, sites)) && forall s :: s in Below(hop, sites) ==> s.path != [] && s.path[0] == hop
  {
    forall i, k | 0 <= i < k < |sites| ensures Before(Below(hop, sites)[i].path, Below(hop, sites)[k].path) {
      assert ([hop] + sites[i].path)[1..] == sites[i].path && ([hop] + sites[k].path)[1..] == sites[k].path;
    }
  }

  lemma {:induction false} SitesOrdered(value: Json, d: Digests)
    ensures Ordered(Sites(value, d))
    decreases Weight(value), 1, 0
  {
    hide Weight, Raw, Ordered;
    NothingOrdered();
    if value.Object? {
      OwnSitesOrdered(value, d);
      FieldSitesOrdered(value, |value.fields|, d);
      OrderedJoin(OwnSites(value, d), FieldSites(value, |value.fields|, d));
    } else if value.List? {
      ItemSitesOrdered(value, |value.items|, d);
    }
  }

  lemma NothingOrdered()
    ensures Ordered([]) && forall s: Site :: Ordered([s])
  {
  }

  lemma {:induction false} OwnSitesOrdered(value: Json, d: Digests)
    ensures Ordered(OwnSites(value, d))
    ensures forall s :: s in OwnSites(value, d) ==> s.path == [] || s.path[0] == Within
    decreases Weight(value), 0, 0
  {
    hide Weight, Raw, Ordered, Below, Sites;
    NothingOrdered();
    var raw := Raw(value, d);
    if raw.Some? {
      RawIsShort(value, d);
      var nested := d.loads(raw.value);
      if nested.Some? {
        SitesOrdered(nested.value, d);
        OrderedBelow(Within, Sites(nested.value, d));
        OrderedJoin([Site([], raw.value)], Below(Within, Sites(nested.value, d)));
      } else {
        assert OwnSites(value, d) == [Site([], raw.value)];
      }
    }
  }

  lemma {:induction false} FieldSitesOrdered(value: Json, n: nat, d: Digests)
    requires value.Object? && n <= |value.fields|
    ensures Ordered(FieldSites(value, n, d))
    ensures forall s :: s in FieldSites(value, n, d) ==> s.path != [] && s.path[0].Into? && s.path[0].field < n
    decreases Weight(value), 0, n
  {
    hide Weight, Ordered, Below, Sites;
    NothingOrdered();
    if n > 0 {
      var child := value.fields[n - 1].value;
      FieldIsLighter(value, |value.fields|, n - 1);
      WeightOfParts(value);
      FieldSitesOrdered(value, n - 1, d);
      SitesOrdered(child, d);
      OrderedBelow(Into(n - 1), Sites(child, d));
      OrderedJoin(FieldSites(value, n - 1, d), Below(Into(n - 1), Sites(child, d)));
    }
  }

  lemma {:induction false} ItemSitesOrdered(value: Json, n: nat, d: Digests)
    requires value.List? && n <= |value.items|
    ensures Ordered(ItemSites(value, n, d))
    ensures forall s :: s in ItemSites(value, n, d) ==> s.path != [] && s.path[0].Nth? && s.path[0].item < n
    decreases Weight(value), 0, n
  {
    hide Weight, Ordered, Below, Sites;
    NothingOrdered();
    if n > 0 {
      var child := value.items[n - 1];
      ItemIsLighter(value, |value.items|, n - 1);
      WeightOfParts(value);
      ItemSitesOrdered(value, n - 1, d);
      SitesOrdered(child, d);
      OrderedBelow(Nth(n - 1), Sites(child, d));
      OrderedJoin(ItemSites(value, n - 1, d), Below(Nth(n - 1), Sites(child, d)));
    }
  }

  /** The digests that stand for a value are those of its payloads, once for each place in the value, or in a document
      one of its payloads decodes to, that carries one, and in the order of the places. */
  lemma EachPayloadIsDigestedOnce(value: Json, d: Digests)
    ensures Digested(value, d).fields[1].value == List(DigestStrings(Raws(Sites(value, d)), d))
    ensures forall p, raw :: Carries(value, p, raw, d) <==> Site(p, raw) in Sites(value, d)
    ensures forall i, k :: 0 <= i < k < |Sites(value, d)| ==>
      Before(Sites(value, d)[i].path, Sites(value, d)[k].path) && Sites(value, d)[i].path != Sites(value, d)[k].path
  {
    hide Carries, Sites, PayloadsOf;
    RawsOfSites(value, d);
    SitesOrdered(value, d);
    forall p: seq<Hop> ensures !Before(p, p) { BeforeIsProper(p); }
    forall p, raw ensures Carries(value, p, raw, d) <==> Site(p, raw) in Sites(value, d) {
      if Carries(value, p, raw, d) { CarriedHasSite(value, p, raw, d); }
      if Site(p, raw) in Sites(value, d) { SitesCarry(value, Site(p, raw), d); }
    }
  }
}
