/** What the texts of redacted places say about the places: `_redact_history` of
    prototype/temporal-factory/scenarios/single_factory.py records each place as "$" followed by ".key" and "[index]"
    steps, and writes keys as they are. A key that reads like a key and further steps makes two places look alike. */
module RedactionTexts {
  import opened Prelude
  import opened Payloads
  import opened Redaction

  /** The text of a path from its first step on. */
  function Tail(p: Path): string {
    if p == [] then "" else StepText(p[0]) + Tail(p[1..])
  }

  lemma {:induction false} TailOfStep(p: Path, s: Step)
    ensures Tail(p + [s]) == Tail(p) + StepText(s)
  {
    hide StepText;
    if p == [] {
      assert [s][1..] == [];
    } else {
      assert (p + [s])[1..] == p[1..] + [s];
      TailOfStep(p[1..], s);
    }
  }

  lemma {:induction false} TextIsTail(start: string, p: Path)
    ensures PathText(start, p) == start + Tail(p)
  {
    hide StepText;
    if p != [] {
      var n := |p| - 1;
      TextIsTail(start, p[..n]);
      TailOfStep(p[..n], p[n]);
      assert p[..n] + [p[n]] == p;
    }
  }

  /** The text reads like steps: nothing, a "." and anything, or an index and a text that reads like steps. */
  ghost predicate ReadsLikeSteps(text: string)
    decreases |text|
  {
    || text == "" || text[0] == '.'
    || exists n :: StepText(Index(n)) <= text && ReadsLikeSteps(text[|StepText(Index(n))|..])
  }

  /** One key is the other followed by what reads like steps. */
  ghost predicate Extends(longer: string, key: string) {
    key < longer && ReadsLikeSteps(longer[|key|..])
  }

  ghost predicate Confusable(k: string, k': string) { Extends(k, k') || Extends(k', k) }

  lemma IndexText(n: nat)
    ensures var t := StepText(Index(n));
      && |t| >= 3 && t[0] == '[' && t[|t| - 1] == ']' && t[1..|t| - 1] == Decimal(n)
      && forall k :: 1 <= k < |t| - 1 ==> '0' <= t[k] <= '9'
  {
    hide Decimal;
    DecimalIsDigits(n);
  }

  /** Two index steps that begin one text are the same step. */
  lemma IndexIsRead(m: nat, x: string, n: nat, y: string)
    requires StepText(Index(m)) + x == StepText(Index(n)) + y
    ensures m == n
  {
    hide StepText, Decimal;
    IndexText(m);
    IndexText(n);
    var t, u, text := StepText(Index(m)), StepText(Index(n)), StepText(Index(m)) + x;
    assert text[|t| - 1] == ']' && text[|u| - 1] == ']';
    assert forall k :: 1 <= k < |t| - 1 ==> text[k] == t[k];
    assert forall k :: 1 <= k < |u| - 1 ==> text[k] == u[k];
    assert t == text[..|t|] && u == text[..|u|];
    DecimalInjective(m, n);
  }

  lemma TailBegins(p: Path)
    ensures Tail(p) != "" ==> Tail(p)[0] == '.' || Tail(p)[0] == '['
    ensures p == [] <==> Tail(p) == ""
  {
  }

  lemma CharAfter(a: string, x: string, b: string, y: string)
    requires a + x == b + y
    ensures |a| < |b| ==> x != "" && x[0] == b[|a|]
  {
    assert |a| < |b| ==> (a + x)[|a|] == (b + y)[|a|];
  }

  /** What stands before the text of a path, within the text of a path, reads like steps. */
  lemma {:induction false} RestReadsLikeSteps(text: string, q: Path, p: Path)
    requires text + Tail(q) == Tail(p)
    ensures ReadsLikeSteps(text)
    decreases |p|
  {
    hide Tail, StepText;
    TailBegins(q);
    TailBegins(p);
    if text != "" && text[0] != '.' {
      var whole := text + Tail(q);
      assert whole[0] == text[0];
      FirstIsIndex(p);
      var n := p[0].index;
      var t := StepText(Index(n));
      IndexText(n);
      TailSplits(p);
      assert whole == t + Tail(p[1..]);
      CharAfter(text, Tail(q), t, Tail(p[1..]));
      assert whole[..|t|] == t && whole[..|text|] == text;
      assert text[..|t|] == t;
      assert text[|t|..] + Tail(q) == whole[|t|..] == Tail(p[1..]);
      RestReadsLikeSteps(text[|t|..], q, p[1..]);
    }
  }

  lemma TailSplits(p: Path)
    requires p != []
    ensures Tail(p) == StepText(p[0]) + Tail(p[1..])
  {
  }

  lemma FirstIsIndex(p: Path)
    requires p != [] && Tail(p) != "" && Tail(p)[0] == '['
    ensures p[0].Index?
  {
  }

  /** Two different steps that begin one text are confusable keys. */
  lemma StepsAreRead(s: Step, p: Path, t: Step, q: Path)
    requires StepText(s) + Tail(p) == StepText(t) + Tail(q)
    ensures s == t || (s.Key? && t.Key? && Confusable(s.key, t.key))
  {
    hide Tail, ReadsLikeSteps, Decimal;
    assert StepText(s)[0] == (StepText(s) + Tail(p))[0] && StepText(t)[0] == (StepText(t) + Tail(q))[0];
    if s.Index? && t.Index? {
      IndexIsRead(s.index, Tail(p), t.index, Tail(q));
    } else if s.Key? && t.Key? && s.key != t.key {
      if |s.key| <= |t.key| { KeysAreRead(s.key, p, t.key, q); } else { KeysAreRead(t.key, q, s.key, p); }
    }
  }

  lemma KeysAreRead(k: string, p: Path, longer: string, q: Path)
    requires "." + k + Tail(p) == "." + longer + Tail(q) && |k| <= |longer| && k != longer
    ensures Extends(longer, k)
  {
    hide Tail, ReadsLikeSteps;
    var text := "." + k + Tail(p);
    assert text[1..|k| + 1] == k && text[1..|longer| + 1] == longer;
    assert longer[..|k|] == k;
    assert longer[|k|..] + Tail(q) == Tail(p);
    RestReadsLikeSteps(longer[|k|..], q, p);
  }

  predicate PlainPath(p: Path) { forall k :: 0 <= k < |p| ==> !SensitiveStep(p[k]) }

  /** There is a plain key `k` right below `at`. */
  ghost predicate Side(document: Json, at: Path, k: string) {
    PlainPath(at) && !Sensitive(k) && Leads(document, at + [Key(k)])
  }

  /** No two keys side by side, under and beside the sensitive ones excepted, are confusable. */
  ghost predicate Unconfused(document: Json) {
    forall at: Path, k, k' :: Side(document, at, k) && Side(document, at, k') ==> !Confusable(k, k')
  }

  lemma {:induction false} LeadsPrefix(value: Json, p: Path, n: nat)
    requires Leads(value, p) && n <= |p|
    ensures Leads(value, p[..n])
    decreases n
  {
    hide Child;
    if n > 0 {
      var child :| Child(value, p[0], child) && Leads(child, p[1..]);
      LeadsPrefix(child, p[1..], n - 1);
      assert p[..n][1..] == p[1..][..n - 1] && p[..n][0] == p[0];
    }
  }

  /** Where two paths part, if neither contains the other. */
  function Common(p: Path, q: Path): (n: nat)
    ensures n <= |p| && n <= |q| && p[..n] == q[..n]
    ensures n < |p| && n < |q| ==> p[n] != q[n]
  {
    if p == [] || q == [] || p[0] != q[0] then 0 else 1 + Common(p[1..], q[1..])
  }

  lemma {:induction false} TailJoins(p: Path, n: nat)
    requires n <= |p|
    ensures Tail(p) == Tail(p[..n]) + Tail(p[n..])
  {
    hide StepText;
    if n == 0 {
      assert p[..0] == [] && p[0..] == p;
    } else {
      TailJoins(p[1..], n - 1);
      assert p[1..][..n - 1] == p[..n][1..] && p[1..][n - 1..] == p[n..] && p[..n][0] == p[0];
    }
  }

  lemma Cancel(a: string, x: string, y: string)
    requires a + x == a + y
    ensures x == y
  {
    assert x == (a + x)[|a|..] && y == (a + y)[|a|..];
  }

  /** Paths with one text that part at step n part there on confusable keys, neither of them sensitive. */
  lemma PartOnKeys(p: Path, q: Path, n: nat)
    requires Tail(p) == Tail(q) && n < |p| && n < |q| && p[..n] == q[..n] && p[n] != q[n]
    ensures p[n].Key? && q[n].Key? && Confusable(p[n].key, q[n].key)
    ensures PlainPath(p[..|p| - 1]) && PlainPath(q[..|q| - 1]) ==> !SensitiveStep(p[n]) && !SensitiveStep(q[n])
  {
    hide Tail, StepText, Confusable, PlainPath, SensitiveStep;
    TailJoins(p, n);
    TailJoins(q, n);
    Cancel(Tail(p[..n]), Tail(p[n..]), Tail(q[n..]));
    TailSplits(p[n..]);
    TailSplits(q[n..]);
    var s, t := p[n..][0], q[n..][0];
    StepsAreRead(s, p[n..][1..], t, q[n..][1..]);
    assert s == p[n] && t == q[n];
    PartNotSensitive(p, q, n, s, t);
  }

  lemma PartNotSensitive(p: Path, q: Path, n: nat, s: Step, t: Step)
    requires n < |p| && n < |q| && p[n] == s && q[n] == t && s.Key? && t.Key? && Confusable(s.key, t.key)
    requires StepText(s) + Tail(p[n..][1..]) == StepText(t) + Tail(q[n..][1..])
    ensures PlainPath(p[..|p| - 1]) && PlainPath(q[..|q| - 1]) ==> !SensitiveStep(p[n]) && !SensitiveStep(q[n])
  {
    hide Extends, StepText, Tail, PlainPath, SensitiveStep;
    if Extends(t.key, s.key) { NotSensitive(s.key, p, n, t.key, q); } else { NotSensitive(t.key, q, n, s.key, p); }
  }

  /** The shorter of two confusable keys is not the last step, and the longer has a dot or a bracket in it. */
  lemma NotSensitive(k: string, p: Path, n: nat, longer: string, q: Path)
    requires n < |p| && n < |q| && p[n] == Key(k) && q[n] == Key(longer)
    requires StepText(Key(k)) + Tail(p[n..][1..]) == StepText(Key(longer)) + Tail(q[n..][1..]) && Extends(longer, k)
    ensures PlainPath(p[..|p| - 1]) ==> !SensitiveStep(p[n])
    ensures !SensitiveStep(q[n])
  {
    hide Tail, Sensitive;
    TailBegins(p[n..][1..]);
    assert n < |p| - 1 && p[..|p| - 1][n] == p[n];
    if Sensitive(longer) {
      SensitiveHasNoSeparator(longer);
      PlainKeys(k, longer);
    }
  }

  lemma SensitiveHasNoSeparator(key: string)
    requires Sensitive(key)
    ensures '.' !in key && '[' !in key
  {
  }

  lemma NeighboursConfused(document: Json, p: Path, q: Path, n: nat)
    requires Leads(document, p) && Leads(document, q) && n < |p| && n < |q| && p[..n] == q[..n] && PlainPath(p[..n])
    requires p[n].Key? && q[n].Key? && Confusable(p[n].key, q[n].key) && !SensitiveStep(p[n]) && !SensitiveStep(q[n])
    ensures !Unconfused(document)
  {
    hide Leads, Confusable, PlainPath, Sensitive;
    LeadsPrefix(document, p, n + 1);
    LeadsPrefix(document, q, n + 1);
    assert p[..n + 1] == p[..n] + [Key(p[n].key)] && q[..n + 1] == p[..n] + [Key(q[n].key)];
    assert Side(document, p[..n], p[n].key) && Side(document, p[..n], q[n].key);
  }

  lemma TopmostIsPlain(document: Json, p: Path)
    requires Topmost(document, p)
    ensures PlainPath(p[..|p| - 1]) && forall n :: 0 <= n < |p| ==> PlainPath(p[..n])
  {
  }

  /** When no neighbouring keys are confusable, the recorded texts determine the places. */
  lemma TextsDeterminePlaces(document: Json, p: Path, q: Path)
    requires Unconfused(document) && p in Places(document, []) && q in Places(document, [])
    requires PathText("$", p) == PathText("$", q)
    ensures p == q
  {
    hide Places, Leads, Tail, PathText, Confusable, PlainPath, SensitiveStep;
    PlacesAreTopmost(document, p, q);
    PlacesAreTopmost(document, q, p);
    TextIsTail("$", p);
    TextIsTail("$", q);
    Cancel("$", Tail(p), Tail(q));
    var n := Common(p, q);
    if n < |p| && n < |q| {
      PartOnKeys(p, q, n);
      TopmostIsPlain(document, p);
      TopmostIsPlain(document, q);
      NeighboursConfused(document, p, q, n);
    }
    assert p <= q || q <= p;
  }

  // When they do not.

  /** A value that path p leads to a null in. */
  function Nest(p: Path): Json {
    if p == [] then Null
    else match p[0]
      case Key(key) => Object([Field(key, Nest(p[1..]))])
      case Index(index) => List(seq(index + 1, k => if k == index then Nest(p[1..]) else Null))
  }

  lemma {:induction false} NestLeads(p: Path)
    ensures Leads(Nest(p), p)
  {
    if p != [] {
      NestLeads(p[1..]);
      assert Child(Nest(p), p[0], Nest(p[1..]));
    }
  }

  /** No sensitive key has a dot. */
  lemma DottedKeyIsPlain(x: string, y: string)
    ensures !Sensitive(x + "." + y)
  {
    assert (x + "." + y)[|x|] == '.';
  }

  lemma TwoKeys(x: string, y: string)
    ensures Tail([Key(x), Key(y)]) == "." + x + "." + y
  {
    assert [Key(x), Key(y)][1..] == [Key(y)] && [Key(y)][1..] == [];
    assert Tail([Key(y)]) == StepText(Key(y));
    assert StepText(Key(x)) + StepText(Key(y)) == "." + x + "." + y;
  }

  /** Only the last step is a sensitive key. */
  ghost predicate EndsSensitive(p: Path) {
    p != [] && SensitiveStep(p[|p| - 1]) && forall k :: 0 <= k < |p| - 1 ==> !SensitiveStep(p[k])
  }

  lemma EndsBelow(s: Step, p: Path)
    requires EndsSensitive(p) && !SensitiveStep(s)
    ensures EndsSensitive([s] + p)
  {
    hide SensitiveStep;
    var q := [s] + p;
    forall k | 0 <= k < |q| - 1 ensures !SensitiveStep(q[k]) {
      if k > 0 { assert q[k] == p[k - 1]; }
    }
  }

  /** Steps that end in a sensitive key and whose text is `text` followed by ".z.token". */
  lemma {:induction false} StepsFor(text: string) returns (p: Path)
    requires ReadsLikeSteps(text)
    ensures Tail(p) == text + ".z.token" && EndsSensitive(p)
    decreases |text|
  {
    hide Tail, StepText, EndsSensitive;
    if text == "" {
      p := [Key("z"), Key("token")];
      TwoKeys("z", "token");
      PlainThenSensitive("z");
    } else if text[0] == '.' {
      var key := text[1..] + "." + "z";
      p := [Key(key), Key("token")];
      TwoKeys(key, "token");
      DottedKeyIsPlain(text[1..], "z");
      PlainThenSensitive(key);
      assert text == "." + text[1..];
    } else {
      var n :| StepText(Index(n)) <= text && ReadsLikeSteps(text[|StepText(Index(n))|..]);
      var t := StepText(Index(n));
      IndexText(n);
      var rest := StepsFor(text[|t|..]);
      p := [Index(n)] + rest;
      TailSplits(p);
      EndsBelow(Index(n), rest);
      assert p[1..] == rest && text == t + text[|t|..];
    }
  }

  lemma PlainThenSensitive(key: string)
    requires !Sensitive(key)
    ensures EndsSensitive([Key(key), Key("token")])
  {
  }

  /** A document with two keys, and a place under each of them, with one text. */
  ghost predicate Collides(document: Json, k: string, p: Path, k': string, q: Path) {
    && document.Object? && |document.fields| == 2 && document.fields[0].key == k && document.fields[1].key == k'
    && p != [] && q != [] && p[0] == Key(k) && q[0] == Key(k')
    && p in Places(document, []) && q in Places(document, []) && PathText("$", p) == PathText("$", q)
  }

  lemma ExtensionCollides(k: string, longer: string) returns (p: Path, q: Path)
    requires Extends(longer, k)
    ensures p != [] && q != [] && p[0] == Key(k) && q[0] == Key(longer) && Tail(p) == Tail(q)
    ensures EndsSensitive(p[1..]) && EndsSensitive(q[1..])
  {
    hide Tail, ReadsLikeSteps, EndsSensitive, StepText;
    var below := StepsFor(longer[|k|..]);
    p, q := [Key(k)] + below, [Key(longer), Key("z"), Key("token")];
    TailSplits(p);
    TailSplits(q);
    TwoKeys("z", "token");
    PlainThenSensitive("z");
    assert p[1..] == below && q[1..] == [Key("z"), Key("token")];
    KeyTexts(k, longer);
  }

  lemma KeyTexts(k: string, longer: string)
    requires k <= longer
    ensures StepText(Key(k)) + (longer[|k|..] + ".z.token") == StepText(Key(longer)) + ".z.token"
  {
  }

  lemma TopmostInPair(document: Json, p: Path, s: Step, child: Json)
    requires Child(document, s, child) && !SensitiveStep(s) && child == Nest(p) && EndsSensitive(p)
    ensures [s] + p in Places(document, [])
  {
    hide Child, SensitiveStep, Places;
    NestLeads(p);
    TopmostBelow(document, s, child, p);
    PlacesAreTopmost(document, [s] + p, [s] + p);
  }

  lemma PairCollides(k: string, p: Path, k': string, q: Path) returns (document: Json)
    requires !Sensitive(k) && !Sensitive(k') && p != [] && q != [] && p[0] == Key(k) && q[0] == Key(k')
    requires Tail(p) == Tail(q) && EndsSensitive(p[1..]) && EndsSensitive(q[1..])
    ensures Collides(document, k, p, k', q)
  {
    hide Places, EndsSensitive, Tail, PathText, Sensitive;
    document := Object([Field(k, Nest(p[1..])), Field(k', Nest(q[1..]))]);
    TextIsTail("$", p);
    TextIsTail("$", q);
    assert [Key(k)] + p[1..] == p && [Key(k')] + q[1..] == q;
    assert document.fields[0] in document.fields && document.fields[1] in document.fields;
    TopmostInPair(document, p[1..], Key(k), Nest(p[1..]));
    TopmostInPair(document, q[1..], Key(k'), Nest(q[1..]));
  }

  /** The condition is exact for a pair of keys side by side: some document with just those two keys records the
      same text for a place under each if and only if they are confusable. */
  lemma ConfusableExactly(k: string, k': string)
    requires !Sensitive(k) && !Sensitive(k') && k != k'
    ensures (exists document, p, q :: Collides(document, k, p, k', q)) <==> Confusable(k, k')
  {
    hide Sensitive, Collides, Extends, Tail, EndsSensitive;
    if Extends(k, k') {
      var q, p := ExtensionCollides(k', k);
      var document := PairCollides(k, p, k', q);
    } else if Extends(k', k) {
      var p, q := ExtensionCollides(k, k');
      var document := PairCollides(k, p, k', q);
    }
    forall document, p, q | Collides(document, k, p, k', q) ensures Confusable(k, k') {
      CollidersAreConfusable(document, k, p, k', q);
    }
  }

  lemma CollidersAreConfusable(document: Json, k: string, p: Path, k': string, q: Path)
    requires Collides(document, k, p, k', q) && k != k'
    ensures Confusable(k, k')
  {
    hide Places, Tail, PathText, Confusable;
    TextIsTail("$", p);
    TextIsTail("$", q);
    Cancel("$", Tail(p), Tail(q));
    PartOnKeys(p, q, 0);
  }

  /** Keys without a dot or a bracket are never confusable. */
  lemma PlainKeysAreNotConfused(document: Json)
    requires forall at: Path, k: string :: Leads(document, at + [Key(k)]) ==> '.' !in k && '[' !in k
    ensures Unconfused(document)
  {
    hide Leads;
    forall at: Path, k, k' | Side(document, at, k) && Side(document, at, k') ensures !Confusable(k, k') {
      PlainKeys(k, k');
      PlainKeys(k', k);
    }
  }

  lemma PlainKeys(k: string, longer: string)
    requires '.' !in longer && '[' !in longer
    ensures !Extends(longer, k)
  {
    if k < longer {
      assert longer[|k|..][0] in longer;
      forall n ensures !(StepText(Index(n)) <= longer[|k|..]) { IndexText(n); }
    }
  }

  /** The simplest case: a dot within a key reads like a step. Both places are recorded, under one text. */
  lemma TextsCollide(x: string, y: string, v: Json, w: Json)
    requires !Sensitive(x) && !Sensitive(y)
    ensures var document := Object([
        Field(x + "." + y, Object([Field("token", v)])),
        Field(x, Object([Field(y, Object([Field("token", w)]))]))]);
      var p, q := [Key(x + "." + y), Key("token")], [Key(x), Key(y), Key("token")];
      p in Places(document, []) && q in Places(document, []) && p != q && PathText("$", p) == PathText("$", q)
  {
    hide PathText, StepText, Tail, Places, Leads, Sensitive;
    var left, low := Object([Field("token", v)]), Object([Field("token", w)]);
    var inner := Object([Field(y, low)]);
    var document := Object([Field(x + "." + y, left), Field(x, inner)]);
    DottedKeyIsPlain(x, y);
    PlainThenSensitive(x);
    TopmostHere(left, Key("token"), v);
    TopmostHere(low, Key("token"), w);
    TopmostBelow(document, Key(x + "." + y), left, [Key("token")]);
    assert Field(y, low) in inner.fields;
    TopmostBelow(inner, Key(y), low, [Key("token")]);
    assert Field(x, inner) == document.fields[1];
    TopmostBelow(document, Key(x), inner, [Key(y)] + [Key("token")]);
    var p, q := [Key(x + "." + y), Key("token")], [Key(x), Key(y), Key("token")];
    assert [Key(x + "." + y)] + [Key("token")] == p && [Key(x)] + ([Key(y)] + [Key("token")]) == q;
    PlacesAreTopmost(document, p, p);
    PlacesAreTopmost(document, q, q);
    DottedText("$", x, y);
  }

  lemma DottedText(start: string, x: string, y: string)
    ensures PathText(start, [Key(x + "." + y), Key("token")]) == PathText(start, [Key(x), Key(y), Key("token")])
  {
    hide PathText, Tail;
    var t := "token";
    TextIsTail(start, [Key(x + "." + y), Key(t)]);
    TextIsTail(start, [Key(x), Key(y), Key(t)]);
    TwoKeys(x + "." + y, t);
    TwoKeys(y, t);
    assert [Key(x), Key(y), Key(t)][1..] == [Key(y), Key(t)];
    TailSplits([Key(x), Key(y), Key(t)]);
    Regroup(".", x, y, t);
  }

  lemma Regroup(dot: string, x: string, y: string, t: string)
    ensures dot + (x + dot + y) + dot + t == (dot + x) + (dot + y + dot + t)
  {
  }
}
