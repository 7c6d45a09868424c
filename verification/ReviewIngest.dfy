/** `ingest` of docs/specs/.viz/runtime.js: polls overlap and repeat, yet clients converge. */
module ReviewIngest {
  import opened Prelude
  import opened ReviewThreads
  import opened ReviewTheorems

  /** A name belongs to one event. */
  ghost predicate DistinctNames(events: seq<Event>) {
    forall d, e :: d in events && e in events && d.name == e.name ==> d == e
  }

  ghost predicate NamedOnce(events: seq<Event>) {
    forall i, k :: 0 <= i < k < |events| ==> events[i].name != events[k].name
  }

  lemma SortedIsNamedOnce(events: seq<Event>)
    requires SortedByName(events)
    ensures NamedOnce(events)
  {
    hide Less;
    forall i, k | 0 <= i < k < |events|
      ensures events[i].name != events[k].name
    {
      LessIsTotal(events[i].name, events[k].name);
    }
  }

  /** What one `ingest` makes of the event list. */
  ghost predicate Ingests(before: seq<Event>, batch: seq<Event>, after: seq<Event>) {
    SortedByName(after) && SameElements(after, before + batch)
  }

  lemma AppendMember(a: seq<Event>, b: seq<Event>, e: Event)
    ensures e in a + b <==> e in a || e in b
  {
  }

  lemma InsertedElements(sorted: seq<Event>, i: nat, e: Event)
    requires i <= |sorted|
    ensures SameElements(sorted[..i] + [e] + sorted[i..], sorted + [e])
  {
    assert sorted == sorted[..i] + sorted[i..];
  }

  lemma InsertedSorted(sorted: seq<Event>, i: nat, e: Event)
    requires i <= |sorted| && SortedByName(sorted) && forall d :: d in sorted ==> d.name != e.name
    requires i > 0 ==> Less(sorted[i - 1].name, e.name)
    requires forall k :: i <= k < |sorted| ==> !Less(sorted[k].name, e.name)
    ensures SortedByName(sorted[..i] + [e] + sorted[i..])
  {
    hide Less;
    forall k | 0 <= k < |sorted| ensures if k < i then Less(sorted[k].name, e.name) else Less(e.name, sorted[k].name) {
      LessIsTotal(sorted[k].name, e.name);
      if k < i - 1 { LessIsTransitive(sorted[k].name, sorted[i - 1].name, e.name); }
    }
  }

  /** The place for e among sorted events. */
  method InsertByName(sorted: seq<Event>, e: Event) returns (inserted: seq<Event>)
    ensures SameElements(inserted, sorted + [e]) && |inserted| == |sorted| + 1
    ensures multiset(inserted) == multiset(sorted) + multiset{e}
    ensures SortedByName(sorted) && (forall d :: d in sorted ==> d.name != e.name) ==> SortedByName(inserted)
  {
    hide Less, SameElements, SortedByName;
    var i := |sorted|;
    while i > 0 && !Less(sorted[i - 1].name, e.name)
      invariant 0 <= i <= |sorted|
      invariant forall k :: i <= k < |sorted| ==> !Less(sorted[k].name, e.name)
    {
      i := i - 1;
    }
    inserted := sorted[..i] + [e] + sorted[i..];
    InsertedElements(sorted, i, e);
    assert sorted == sorted[..i] + sorted[i..];
    if SortedByName(sorted) && forall d :: d in sorted ==> d.name != e.name { InsertedSorted(sorted, i, e); }
  }

  /** `Array.prototype.sort` by name. On distinct names every sorting method gives this result. */
  method SortByName(events: seq<Event>) returns (sorted: seq<Event>)
    ensures SameElements(sorted, events) && |sorted| == |events| && multiset(sorted) == multiset(events)
    ensures NamedOnce(events) ==> SortedByName(sorted)
  {
    hide Less;
    sorted := [];
    for i := 0 to |events|
      invariant |sorted| == i && SameElements(sorted, events[..i]) && multiset(sorted) == multiset(events[..i])
      invariant NamedOnce(events) ==> SortedByName(sorted)
    {
      ghost var before := sorted;
      sorted := InsertByName(sorted, events[i]);
      assert events[..i + 1] == events[..i] + [events[i]];
      forall e ensures e in sorted <==> e in events[..i + 1] {
        AppendMember(before, [events[i]], e);
        assert events[..i + 1] == events[..i] + [events[i]];
        AppendMember(events[..i], [events[i]], e);
      }
    }
    assert events[..|events|] == events;
  }

  /** `e.actor + '/' + e.name`. */
  function Key(e: Event): (Actor, string) { (e.actor, e.name) }

  /** The seen keys are those of the events held. */
  ghost predicate Tracks(seen: set<(Actor, string)>, events: seq<Event>) {
    && (forall e :: e in events ==> Key(e) in seen)
    && (forall n :: n in seen ==> exists e :: e in events && Key(e) == n)
  }

  /** The thread objects hold the fold's threads. */
  ghost predicate Shows(threads: map<string, ThreadObject>, events: seq<Event>)
    reads threads.Values
  {
    && threads.Keys == FoldEvents(events).threads.Keys
    && forall id :: id in threads ==> threads[id].Value() == Threads(FoldEvents(events))[id]
  }

  /** Every actor and name among these events is that of an event held. */
  ghost predicate HoldsNames(events: seq<Event>, given: seq<Event>) {
    forall e :: e in given ==> HoldsName(events, e)
  }

  ghost predicate HoldsName(events: seq<Event>, e: Event) {
    exists d :: d in events && d.actor == e.actor && d.name == e.name
  }

  /** No two events held have the same actor and name. */
  ghost predicate HeldOnce(events: seq<Event>) {
    forall i, k :: 0 <= i < k < |events| ==> events[i].actor != events[k].actor || events[i].name != events[k].name
  }

  /** Everything held or polled is held by actor and name, nothing else is, and nothing twice if nothing was. */
  ghost predicate Keeps(before: seq<Event>, batch: seq<Event>, events: seq<Event>) {
    && HoldsNames(events, before + batch) && (forall e :: e in events ==> e in before + batch)
    && (HeldOnce(before) ==> HeldOnce(events))
  }

  /** The events held after the first n of a batch. */
  ghost predicate Gathered(before: seq<Event>, batch: seq<Event>, n: nat, events: seq<Event>)
    requires n <= |batch|
  {
    && before <= events && (forall e :: e in events ==> e in before + batch)
    && (DistinctNames(before + batch) ==> forall k :: 0 <= k < n ==> batch[k] in events)
    && (DistinctNames(before + batch) && NamedOnce(before) ==> NamedOnce(events))
  }

  lemma GatherKnown(before: seq<Event>, batch: seq<Event>, n: nat, events: seq<Event>, seen: set<(Actor, string)>)
    requires n < |batch| && Gathered(before, batch, n, events) && Tracks(seen, events) && Key(batch[n]) in seen
    ensures Gathered(before, batch, n + 1, events)
  {
    var e :| e in events && Key(e) == Key(batch[n]);
    assert e in before + batch && batch[n] in before + batch;
  }

  lemma GatherNew(before: seq<Event>, batch: seq<Event>, n: nat, events: seq<Event>, seen: set<(Actor, string)>)
    requires n < |batch| && Gathered(before, batch, n, events) && Tracks(seen, events) && Key(batch[n]) !in seen
    ensures Gathered(before, batch, n + 1, events + [batch[n]]) && Tracks(seen + {Key(batch[n])}, events + [batch[n]])
  {
    var e := batch[n];
    var events' := events + [e];
    assert e in before + batch && e in events';
    forall m | m in seen ensures exists d :: d in events' && Key(d) == m {
      var d :| d in events && Key(d) == m;
      assert d in events';
    }
    forall k | 0 <= k < |events| && DistinctNames(before + batch) ensures events[k].name != e.name {
      assert events[k] in events && events[k] in before + batch;
    }
  }

  lemma SortedTracks(seen: set<(Actor, string)>, events: seq<Event>, sorted: seq<Event>)
    requires Tracks(seen, events) && SameElements(sorted, events)
    ensures Tracks(seen, sorted)
  {
    forall n | n in seen ensures exists e :: e in sorted && Key(e) == n {
      var e :| e in events && Key(e) == n;
      assert e in sorted;
    }
  }

  lemma GatheredAll(before: seq<Event>, batch: seq<Event>, events: seq<Event>, sorted: seq<Event>)
    requires Gathered(before, batch, |batch|, events) && SameElements(sorted, events)
    requires DistinctNames(before + batch) && SortedByName(sorted)
    ensures Ingests(before, batch, sorted)
  {
    hide SortedByName, DistinctNames;
    forall e ensures e in sorted <==> e in before + batch {
      AppendMember(before, batch, e);
      if e in before { var k :| 0 <= k < |before| && before[k] == e; assert events[k] == e; }
    }
  }

  /** The part of the runtime's state that `ingest` changes. */
  class ReviewState {
    var seenNames: set<(Actor, string)>
    var events: seq<Event>
    var threads: map<string, ThreadObject>
    var expandedResolved: set<string>
    var eventsRendered: bool

    ghost predicate Valid()
      reads this, threads.Values
    {
      Tracks(seenNames, events) && Shows(threads, events)
    }

    constructor ()
      ensures Valid() && events == [] && expandedResolved == {}
    {
      seenNames, events, threads, expandedResolved, eventsRendered := {}, [], map[], {}, false;
    }

    /** `ingest`. Whatever was held and whatever the batch repeats, the events end up sorted and held once, the
        threads are their fold, and only threads still resolved stay expanded. */
    method Ingest(batch: seq<Event>)
      requires Valid()
      modifies this
      ensures Valid() && eventsRendered
      ensures DistinctNames(old(events) + batch) && SortedByName(old(events)) ==> Ingests(old(events), batch, events)
      ensures Keeps(old(events), batch, events)
      ensures |events| >= |old(events)|
      ensures (|events| == |old(events)| ==> events == old(events) && expandedResolved == old(expandedResolved))
      ensures |events| > |old(events)| ==>
        forall id :: id in expandedResolved <==>
          id in old(expandedResolved) && id in threads && Threads(FoldEvents(events))[id].status == "resolved"
    {
      hide Tracks, Gathered, SortedByName, DistinctNames, Ingests, FoldEvents, Threads, NamedOnce, HoldsNames, HeldOnce;
      var changed := false;
      ghost var before, shown := events, threads;
      GatherNothing(before, batch);
      for i := 0 to |batch|
        invariant Tracks(seenNames, events) && Gathered(before, batch, i, events)
        invariant HoldsNames(events, before + batch[..i]) && (HeldOnce(before) ==> HeldOnce(events))
        invariant threads == shown && expandedResolved == old(expandedResolved)
        invariant |events| >= |before| && (changed <==> |events| > |before|) && (!changed ==> events == before)
      {
        assert before + batch[..i + 1] == (before + batch[..i]) + [batch[i]];
        if Key(batch[i]) in seenNames {
          GatherKnown(before, batch, i, events, seenNames);
          HeldKnown(events, before + batch[..i], batch[i], seenNames);
        } else {
          HeldNew(events, before + batch[..i], batch[i], seenNames);
          GatherNew(before, batch, i, events, seenNames);
          seenNames := seenNames + {Key(batch[i])};
          events := events + [batch[i]];
          changed := true;
        }
      }
      assert batch[..|batch|] == batch;
      OnlyGathered(before, batch, events);
      if SortedByName(before) { SortedIsNamedOnce(before); }
      eventsRendered := true;
      if !changed {
        if DistinctNames(before + batch) && SortedByName(before) { GatheredAll(before, batch, events, events); }
        return;
      }
      ghost var gathered := events;
      events := SortByName(events);
      SortedTracks(seenNames, gathered, events);
      SortedHolds(gathered, before + batch, events);
      if DistinctNames(before + batch) && SortedByName(before) {
        GatheredOnce(before, batch, gathered);
        GatheredAll(before, batch, gathered, events);
      }
      var order;
      threads, order := FoldThreads(events);
      Prune();
    }

    /** runtime.js:709-711. */
    method Prune()
      requires Valid()
      modifies `expandedResolved
      ensures forall id :: id in expandedResolved <==>
        id in old(expandedResolved) && id in threads && Threads(FoldEvents(events))[id].status == "resolved"
    {
      var left := expandedResolved;
      while left != {}
        invariant left <= expandedResolved <= old(expandedResolved)
        invariant forall id :: id in old(expandedResolved) && id !in left ==>
          (id in expandedResolved <==> id in threads && threads[id].status == "resolved")
        invariant forall id :: id in left ==> id in expandedResolved
        decreases |left|
      {
        var id :| id in left;
        left := left - {id};
        if !(id in threads && threads[id].status == "resolved") { expandedResolved := expandedResolved - {id}; }
      }
    }
  }

  lemma HeldKnown(events: seq<Event>, given: seq<Event>, e: Event, seen: set<(Actor, string)>)
    requires HoldsNames(events, given) && Tracks(seen, events) && Key(e) in seen
    ensures HoldsNames(events, given + [e])
  {
    var d :| d in events && Key(d) == Key(e);
  }

  lemma HeldNew(events: seq<Event>, given: seq<Event>, e: Event, seen: set<(Actor, string)>)
    requires HoldsNames(events, given) && Tracks(seen, events) && Key(e) !in seen
    ensures HoldsNames(events + [e], given + [e]) && (HeldOnce(events) ==> HeldOnce(events + [e]))
  {
    var events' := events + [e];
    assert e in events';
    forall g | g in given + [e] ensures HoldsName(events', g) {
      if g in given {
        assert HoldsName(events, g);
        var d :| d in events && d.actor == g.actor && d.name == g.name;
        assert d in events';
      }
    }
    assert forall k :: 0 <= k < |events| ==> events[k] in events && Key(events[k]) != Key(e);
  }

  lemma OnlyGathered(before: seq<Event>, batch: seq<Event>, events: seq<Event>)
    requires Gathered(before, batch, |batch|, events)
    ensures forall e :: e in events ==> e in before + batch
  {
  }

  lemma {:induction false} PermutedOnce(a: seq<Event>, b: seq<Event>)
    requires multiset(a) == multiset(b) && HeldOnce(a)
    ensures HeldOnce(b)
  {
    forall i, k | 0 <= i < k < |b| ensures b[i].actor != b[k].actor || b[i].name != b[k].name {
      if Key(b[i]) == Key(b[k]) { TwiceHeld(a, b, i, k); }
    }
  }

  /** Two events with one actor and name in a permutation are two in the original. */
  lemma TwiceHeld(a: seq<Event>, b: seq<Event>, i: nat, k: nat)
    requires multiset(a) == multiset(b) && i < k < |b| && Key(b[i]) == Key(b[k])
    ensures !HeldOnce(a)
  {
    if b[i] == b[k] {
      TwoOf(b, i, k);
      TwoPlaces(a, b[i]);
    } else {
      assert b[i] in multiset(b) && b[k] in multiset(b);
      var x :| 0 <= x < |a| && a[x] == b[i];
      var y :| 0 <= y < |a| && a[y] == b[k];
      assert x != y;
      assert !HeldOnce(a) by { if x < y { assert Key(a[x]) == Key(a[y]); } else { assert Key(a[y]) == Key(a[x]); } }
    }
  }

  lemma TwoOf(b: seq<Event>, i: nat, k: nat)
    requires i < k < |b| && b[i] == b[k]
    ensures multiset(b)[b[i]] >= 2
  {
    assert b == b[..i + 1] + b[i + 1..];
    assert b[i] in b[..i + 1] && b[k] == b[i + 1..][k - i - 1];
    assert multiset(b) == multiset(b[..i + 1]) + multiset(b[i + 1..]);
  }

  lemma TwoPlaces(a: seq<Event>, e: Event)
    requires multiset(a)[e] >= 2
    ensures !HeldOnce(a)
  {
    assert e in multiset(a);
    var x :| 0 <= x < |a| && a[x] == e;
    assert a == a[..x] + [e] + a[x + 1..];
    assert multiset(a) == multiset(a[..x]) + multiset{e} + multiset(a[x + 1..]);
    assert e in multiset(a[..x]) || e in multiset(a[x + 1..]);
    var y :| 0 <= y < |a| && y != x && a[y] == e;
    assert Key(a[x]) == Key(a[y]);
  }

  /** Sorting neither loses nor repeats an event. */
  lemma SortedHolds(gathered: seq<Event>, given: seq<Event>, sorted: seq<Event>)
    requires SameElements(sorted, gathered) && multiset(sorted) == multiset(gathered) && HoldsNames(gathered, given)
    requires forall e :: e in gathered ==> e in given
    ensures HoldsNames(sorted, given) && (HeldOnce(gathered) ==> HeldOnce(sorted))
    ensures forall e :: e in sorted ==> e in given
  {
    forall g | g in given ensures HoldsName(sorted, g) {
      assert HoldsName(gathered, g);
      var d :| d in gathered && d.actor == g.actor && d.name == g.name;
      assert d in sorted;
    }
    if HeldOnce(gathered) { PermutedOnce(gathered, sorted); }
  }

  lemma GatherNothing(before: seq<Event>, batch: seq<Event>)
    ensures Gathered(before, batch, 0, before) && HoldsNames(before, before + batch[..0])
  {
    assert before + batch[..0] == before;
  }

  lemma GatheredOnce(before: seq<Event>, batch: seq<Event>, events: seq<Event>)
    requires Gathered(before, batch, |batch|, events) && DistinctNames(before + batch) && NamedOnce(before)
    ensures NamedOnce(events)
  {
  }

  // Convergence.

  function Flatten(batches: seq<seq<Event>>): seq<Event> {
    if batches == [] then [] else Flatten(batches[..|batches| - 1]) + batches[|batches| - 1]
  }

  /** The event lists a client can hold after these `ingest` calls. */
  ghost predicate Reaches(batches: seq<seq<Event>>, events: seq<Event>)
    decreases |batches|
  {
    if batches == [] then events == []
    else
      var init, last := batches[..|batches| - 1], batches[|batches| - 1];
      exists before: seq<Event> :: Reaches(init, before) && Ingests(before, last, events)
  }

  lemma {:induction false} ReachedIsSortedSet(batches: seq<seq<Event>>, events: seq<Event>)
    requires Reaches(batches, events)
    ensures SortedByName(events) && SameElements(events, Flatten(batches))
    decreases |batches|
  {
    hide SortedByName;
    if batches == [] {
      assert SortedByName(events) by { EmptySorted(); }
    } else {
      var n := |batches| - 1;
      var before: seq<Event> :| Reaches(batches[..n], before) && Ingests(before, batches[n], events);
      ReachedIsSortedSet(batches[..n], before);
      forall e ensures e in events <==> e in Flatten(batches) {
        AppendMember(before, batches[n], e);
        AppendMember(Flatten(batches[..n]), batches[n], e);
      }
    }
  }

  lemma EmptySorted()
    ensures SortedByName([])
  {
  }

  /** Convergence. However two clients received the same events — in batches of any size, overlapping, repeated, in
      any order — they hold the same list, the sorted set of events seen, and so show the same threads. */
  lemma ClientsConverge(batches: seq<seq<Event>>, events: seq<Event>, batches': seq<seq<Event>>, events': seq<Event>)
    requires Reaches(batches, events) && Reaches(batches', events') && SameElements(Flatten(batches), Flatten(batches'))
    ensures events == events' && FoldEvents(events) == FoldEvents(events')
    ensures SameElements(events, Flatten(batches)) && SortedByName(events) && DistinctNames(Flatten(batches))
  {
    hide SortedByName;
    ReachedIsSortedSet(batches, events);
    ReachedIsSortedSet(batches', events');
    SortedIsUnique(events, events');
    SortedIsNamedOnce(events);
  }

  /** And a single `ingest` of everything gives that same list. */
  lemma OneBatchSuffices(batches: seq<seq<Event>>, events: seq<Event>, all: seq<Event>)
    requires Reaches(batches, events) && Ingests([], Flatten(batches), all)
    ensures all == events
  {
    hide SortedByName;
    ReachedIsSortedSet(batches, events);
    assert [] + Flatten(batches) == Flatten(batches);
    SortedIsUnique(all, events);
  }

  lemma {:induction false} FlattenPrefix(batches: seq<seq<Event>>, n: nat, e: Event)
    requires n <= |batches| && e in Flatten(batches[..n])
    ensures e in Flatten(batches)
    decreases |batches|
  {
    if n == |batches| {
      assert batches[..n] == batches;
    } else {
      var last := |batches| - 1;
      assert batches[..last][..n] == batches[..n];
      FlattenPrefix(batches[..last], n, e);
    }
  }

  /** What is held after some batches, with the next one, still names each event once. */
  lemma NextBatchIsDistinct(batches: seq<seq<Event>>, n: nat, events: seq<Event>)
    requires n < |batches| && DistinctNames(Flatten(batches)) && Reaches(batches[..n], events)
    ensures DistinctNames(events + batches[n]) && SortedByName(events)
  {
    hide SortedByName;
    ReachedIsSortedSet(batches[..n], events);
    assert batches[..n + 1][..n] == batches[..n];
    forall e | e in events + batches[n] ensures e in Flatten(batches) {
      AppendMember(Flatten(batches[..n]), batches[n], e);
      FlattenPrefix(batches, n + 1, e);
    }
  }

  /** A client that ingests these batches, one poll after the other, reaches the state `Reaches` speaks of; the one
      thing asked of the batches is that a name belongs to one event. */
  method IngestAll(batches: seq<seq<Event>>) returns (s: ReviewState)
    requires DistinctNames(Flatten(batches))
    ensures fresh(s) && s.Valid() && Reaches(batches, s.events)
  {
    hide DistinctNames, Tracks, Shows, Ingests, Flatten;
    s := new ReviewState();
    for n := 0 to |batches|
      invariant fresh(s) && s.Valid() && Reaches(batches[..n], s.events)
    {
      NextBatchIsDistinct(batches, n, s.events);
      ghost var before := s.events;
      s.Ingest(batches[n]);
      assert batches[..n + 1][..n] == batches[..n];
      assert Reaches(batches[..n], before) && Ingests(before, batches[n], s.events);
    }
    assert batches[..|batches|] == batches;
  }

  /** Two clients that received the same events, each name naming one event, end up showing the same threads. */
  method TwoClients(batches: seq<seq<Event>>, batches': seq<seq<Event>>) returns (s: ReviewState, s': ReviewState)
    requires DistinctNames(Flatten(batches)) && SameElements(Flatten(batches), Flatten(batches'))
    ensures fresh(s) && fresh(s') && s.Valid() && s'.Valid() && s.events == s'.events
    ensures SameElements(s.events, Flatten(batches)) && SortedByName(s.events)
    ensures s.threads.Keys == s'.threads.Keys && forall id :: id in s.threads ==>
      s.threads[id].Value() == s'.threads[id].Value()
  {
    hide SortedByName, Tracks, Ingests, Flatten;
    s := IngestAll(batches);
    s' := IngestAll(batches');
    ClientsConverge(batches, s.events, batches', s'.events);
  }
}
