/** The threads of a list of review events, said over the list alone: which messages each shows and where, its latest
    human message and its status. `foldThreads` of docs/specs/.viz/runtime.js computes exactly these. */
module ReviewExactly {
  import opened Prelude
  import opened ReviewThreads
  import opened ReviewTheorems
  import opened ReviewHandoff
  import opened ReviewPlacement

  // Places within a thread.

  /** Event k takes a new place in its thread: every comment and reply does, and an edit of a message never seen. */
  predicate TakesNewPlace(events: seq<Event>, k: nat)
    requires k < |events|
  {
    Home(events, k).Some? && !(events[k].kind.Edit? && HomeOf(events, k, events[k].supersedes).Some?)
  }

  /** How many places the thread of comment c has after n events. */
  function Places(events: seq<Event>, n: nat, c: nat): nat
    requires n <= |events|
  {
    if n == 0 then 0
    else Places(events, n - 1, c) + if Home(events, n - 1) == Some(c) && TakesNewPlace(events, n - 1) then 1 else 0
  }

  /** The place event k is given in its thread. */
  function Place(events: seq<Event>, k: nat): nat
    requires k < |events| && Home(events, k).Some?
    decreases k
  {
    if TakesNewPlace(events, k) then Places(events, k, Home(events, k).value)
    else Place(events, Earlier(events, k, events[k].supersedes).value)
  }

  ghost predicate Stands(events: seq<Event>, n: nat, c: nat, j: nat, k: nat)
    requires n <= |events|
  {
    && k < n && Home(events, k) == Some(c) && Place(events, k) == j
    && forall m :: k < m < n ==> !(Home(events, m) == Some(c) && Place(events, m) == j)
  }

  ghost predicate LatestHuman(events: seq<Event>, n: nat, c: nat, k: nat)
    requires n <= |events|
  {
    && k < n && Home(events, k) == Some(c) && events[k].actor.Human?
    && forall m :: k < m < n ==> !(Home(events, m) == Some(c) && events[m].actor.Human?)
  }

  /** The thread comment c opened, said over the first n events: at each place stands the last event given it. */
  ghost predicate ThreadIs(th: Thread, events: seq<Event>, n: nat, c: nat)
    requires n <= |events| && c < n
  {
    && th.id == events[c].id && |th.messages| == Places(events, n, c) >= 1 && th.ev == th.messages[0]
    && (forall j :: 0 <= j < |th.messages| ==> StandsThere(th.messages[j], events, n, c, j))
    && LatestIs(th.latestHumanId, events, n, c)
  }

  ghost predicate StandsThere(e: Event, events: seq<Event>, n: nat, c: nat, j: nat)
    requires n <= |events|
  {
    exists k: nat :: Stands(events, n, c, j, k) && e == events[k]
  }

  ghost predicate LatestIs(id: string, events: seq<Event>, n: nat, c: nat)
    requires n <= |events|
  {
    exists k: nat :: LatestHuman(events, n, c, k) && id == events[k].id
  }

  lemma StillStands(e: Event, events: seq<Event>, n: nat, c: nat, j: nat)
    requires n < |events| && StandsThere(e, events, n, c, j) && !(Home(events, n) == Some(c) && Place(events, n) == j)
    ensures StandsThere(e, events, n + 1, c, j)
  {
    hide Home, Place;
    var k: nat :| Stands(events, n, c, j, k) && e == events[k];
    assert Stands(events, n + 1, c, j, k);
  }

  lemma NowStands(events: seq<Event>, n: nat, c: nat, j: nat)
    requires n < |events| && Home(events, n) == Some(c) && Place(events, n) == j
    ensures StandsThere(events[n], events, n + 1, c, j)
  {
    hide Home, Place;
    assert Stands(events, n + 1, c, j, n);
  }

  lemma LatestNow(id: string, events: seq<Event>, n: nat, c: nat)
    requires n < |events|
    ensures Home(events, n) == Some(c) && events[n].actor.Human? ==> LatestIs(events[n].id, events, n + 1, c)
    ensures LatestIs(id, events, n, c) && !(Home(events, n) == Some(c) && events[n].actor.Human?) ==>
      LatestIs(id, events, n + 1, c)
  {
    hide Home;
    if Home(events, n) == Some(c) && events[n].actor.Human? { assert LatestHuman(events, n + 1, c, n); }
    else if LatestIs(id, events, n, c) {
      var k: nat :| LatestHuman(events, n, c, k) && id == events[k].id;
      assert LatestHuman(events, n + 1, c, k);
    }
  }

  lemma {:induction false} PlacesGrow(events: seq<Event>, n: nat, m: nat, c: nat)
    requires n <= m <= |events|
    ensures Places(events, n, c) <= Places(events, m, c)
  {
    if n < m { PlacesGrow(events, n, m - 1, c); }
  }

  lemma {:induction false} PlaceWithin(events: seq<Event>, k: nat, n: nat)
    requires k < n <= |events| && Home(events, k).Some?
    ensures Place(events, k) < Places(events, n, Home(events, k).value)
    decreases k
  {
    PlacesGrow(events, k + 1, n, Home(events, k).value);
    if !TakesNewPlace(events, k) {
      var m := Earlier(events, k, events[k].supersedes).value;
      PlaceWithin(events, m, k);
      PlacesGrow(events, k, k + 1, Home(events, k).value);
    }
  }

  lemma {:induction false} NoPlacesYet(events: seq<Event>, n: nat, c: nat)
    requires n <= c < |events|
    ensures Places(events, n, c) == 0
  {
    if n > 0 { NoPlacesYet(events, n - 1, c); }
  }

  lemma ThreadUntouched(th: Thread, events: seq<Event>, n: nat, c: nat)
    requires c < n < |events| && ThreadIs(th, events, n, c) && Home(events, n) != Some(c)
    ensures ThreadIs(th, events, n + 1, c)
  {
    hide Home, Place, StandsThere, LatestIs;
    forall j | 0 <= j < |th.messages| ensures StandsThere(th.messages[j], events, n + 1, c, j) {
      StillStands(th.messages[j], events, n, c, j);
    }
    LatestNow(th.latestHumanId, events, n, c);
  }

  lemma ThreadOpened(th: Thread, events: seq<Event>, n: nat)
    requires n < |events| && OpensThread(events[n])
    requires th.id == events[n].id && th.ev == events[n] && th.messages == [events[n]]
    requires th.latestHumanId == events[n].id
    ensures ThreadIs(th, events, n + 1, n) && Place(events, n) == 0
  {
    NoPlacesYet(events, n, n);
    NowStands(events, n, n, 0);
    LatestNow("", events, n, n);
  }

  /** The thread after event n, which took place `index` in it. */
  lemma ThreadChanged(th: Thread, th': Thread, events: seq<Event>, n: nat, c: nat, index: nat)
    requires c < n < |events| && ThreadIs(th, events, n, c) && Home(events, n) == Some(c) && Place(events, n) == index
    requires th'.id == th.id && index <= |th.messages| && (TakesNewPlace(events, n) <==> index == |th.messages|)
    requires th'.messages
      == if index < |th.messages| then th.messages[index := events[n]] else th.messages + [events[n]]
    requires th'.ev == th'.messages[0]
    requires th'.latestHumanId == if events[n].actor.Human? then events[n].id else th.latestHumanId
    ensures ThreadIs(th', events, n + 1, c)
  {
    hide Home, Place, TakesNewPlace, StandsThere, LatestIs;
    forall j | 0 <= j < |th'.messages| ensures StandsThere(th'.messages[j], events, n + 1, c, j) {
      if j == index {
        NowStands(events, n, c, j);
      } else {
        StillStands(th.messages[j], events, n, c, j);
      }
    }
    LatestNow(th.latestHumanId, events, n, c);
  }

  // The whole fold.

  ghost predicate AllThreads(f: Fold, events: seq<Event>, n: nat)
    requires n <= |events| && FoldOk(f)
  {
    && (forall c :: 0 <= c < n && OpensThread(events[c]) ==> ThreadIsAt(f, events, n, c))
    && (forall k :: 0 <= k < n && Home(events, k).Some? ==> SlotIsPlace(f, events, k))
  }

  ghost predicate ThreadIsAt(f: Fold, events: seq<Event>, n: nat, c: nat)
    requires FoldOk(f) && c < n <= |events|
  {
    events[c].id in f.threads && ThreadIs(f.objects[f.threads[events[c].id]], events, n, c)
  }

  ghost predicate SlotIsPlace(f: Fold, events: seq<Event>, k: nat)
    requires k < |events| && Home(events, k).Some?
  {
    events[k].id in f.messageSlot && f.messageSlot[events[k].id].index == Place(events, k)
  }

  /** Different comments opened different threads. */
  lemma ThreadsApart(f: Fold, events: seq<Event>, n: nat, c: nat, d: nat)
    requires n <= |events| && Maps(f, events, n) && DistinctIds(events) && c < n && d < n && c != d
    requires OpensThread(events[c]) && OpensThread(events[d])
    ensures events[c].id in f.threads && events[d].id in f.threads
    ensures f.threads[events[c].id] != f.threads[events[d].id]
  {
    hide PutIn, PutSomewhere, OpenedBy, Home;
    assert Opened(f, events, c) && Opened(f, events, d);
  }

  /** A thread that event n leaves as it is, its status apart. */
  lemma OtherIsKept(f: Fold, f': Fold, events: seq<Event>, n: nat, c: nat)
    requires c < n < |events| && FoldOk(f) && FoldOk(f') && ThreadIsAt(f, events, n, c) && Home(events, n) != Some(c)
    requires events[c].id in f'.threads && f'.threads[events[c].id] == f.threads[events[c].id]
    requires f'.objects[f.threads[events[c].id]].(status := "") == f.objects[f.threads[events[c].id]].(status := "")
    ensures ThreadIsAt(f', events, n + 1, c)
  {
    hide Home, ThreadIs;
    var th, th' := f.objects[f.threads[events[c].id]], f'.objects[f.threads[events[c].id]];
    ThreadUntouched(th, events, n, c);
    SameButStatus(th, th', events, n + 1, c);
  }

  lemma SameButStatus(th: Thread, th': Thread, events: seq<Event>, n: nat, c: nat)
    requires c < n <= |events| && ThreadIs(th, events, n, c) && th'.(status := "") == th.(status := "")
    ensures ThreadIs(th', events, n, c)
  {
    hide StandsThere, LatestIs, Places;
    assert th'.(status := "").id == th'.id && th'.(status := "").messages == th'.messages;
    assert th'.(status := "").ev == th'.ev && th'.(status := "").latestHumanId == th'.latestHumanId;
  }

  lemma SlotStaysPlace(f: Fold, f': Fold, events: seq<Event>, n: nat, k: nat)
    requires k < n < |events| && DistinctIds(events) && Home(events, k).Some? && SlotIsPlace(f, events, k)
    requires forall id :: id in f.messageSlot && id != events[n].id ==>
      id in f'.messageSlot && f'.messageSlot[id] == f.messageSlot[id]
    ensures SlotIsPlace(f', events, k)
  {
    hide Home, Place;
    assert events[k].id != events[n].id;
  }

  lemma HomeIsOpened(f: Fold, events: seq<Event>, n: nat, c: nat)
    requires c < n <= |events| && Maps(f, events, n) && OpensThread(events[c])
    ensures events[c].id in f.threads && f.threads[events[c].id] < |f.objects|
  {
    hide PutIn, PutSomewhere, OpenedBy, Home;
    assert Opened(f, events, c);
  }

  /** Event n goes to place `index` of the thread comment c opened, and to no other. */
  lemma OneThreadChanged(f: Fold, f': Fold, events: seq<Event>, n: nat, c: nat, t: nat, index: nat)
    requires DistinctIds(events) && c < n < |events| && Maps(f, events, n) && FoldOk(f') && AllThreads(f, events, n)
    requires Home(events, n) == Some(c) && !OpensThread(events[n]) && events[c].id in f.threads
    requires t == f.threads[events[c].id]
    requires Place(events, n) == index && f'.threads == f.threads
    requires f'.messageSlot == f.messageSlot[events[n].id := Slot(t, index)]
    requires t < |f.objects| == |f'.objects| && forall k :: 0 <= k < |f.objects| && k != t ==>
      f'.objects[k] == f.objects[k]
    requires var th, th' := f.objects[t], f'.objects[t];
      && th'.id == th.id && index <= |th.messages| && (TakesNewPlace(events, n) <==> index == |th.messages|)
      && th'.messages == (if index < |th.messages| then th.messages[index := events[n]] else th.messages + [events[n]])
      && th'.ev == th'.messages[0]
      && th'.latestHumanId == (if events[n].actor.Human? then events[n].id else th.latestHumanId)
    ensures AllThreads(f', events, n + 1)
  {
    hide Home, Place, TakesNewPlace, ThreadIs, PutIn, PutSomewhere, OpenedBy, Opened, DistinctIds, FoldOk;
    HomeOpens(events, n);
    forall d | 0 <= d < n + 1 && OpensThread(events[d]) ensures ThreadIsAt(f', events, n + 1, d) {
      assert ThreadIsAt(f, events, n, d);
      if d == c {
        ThreadChanged(f.objects[t], f'.objects[t], events, n, c, index);
      } else {
        ThreadsApart(f, events, n, c, d);
        HomeIsOpened(f, events, n, d);
        OtherIsKept(f, f', events, n, d);
      }
    }
    forall k | 0 <= k < n + 1 && Home(events, k).Some? ensures SlotIsPlace(f', events, k) {
      if k < n { SlotStaysPlace(f, f', events, n, k); }
    }
  }

  lemma HomeOpens(events: seq<Event>, n: nat)
    requires n < |events| && Home(events, n).Some?
    ensures Home(events, n).value <= n && OpensThread(events[Home(events, n).value])
  {
  }

  lemma NoThreadChanged(f: Fold, f': Fold, events: seq<Event>, n: nat)
    requires DistinctIds(events) && n < |events| && Maps(f, events, n) && FoldOk(f') && AllThreads(f, events, n)
    requires Home(events, n).None? && f'.threads == f.threads && f'.messageSlot == f.messageSlot
    requires |f.objects| == |f'.objects|
    requires forall k :: 0 <= k < |f.objects| ==> f'.objects[k].(status := "") == f.objects[k].(status := "")
    ensures AllThreads(f', events, n + 1)
  {
    hide Home, Place, ThreadIs, PutIn, PutSomewhere, OpenedBy, Opened, DistinctIds, FoldOk;
    OwnHome(events, n);
    forall d | 0 <= d < n + 1 && OpensThread(events[d]) ensures ThreadIsAt(f', events, n + 1, d) {
      assert ThreadIsAt(f, events, n, d);
      HomeIsOpened(f, events, n, d);
      OtherIsKept(f, f', events, n, d);
    }
    forall k | 0 <= k < n + 1 && Home(events, k).Some? ensures SlotIsPlace(f', events, k) {
      SlotStaysPlace(f, f', events, n, k);
    }
  }

  lemma ThreadAdded(f: Fold, f': Fold, events: seq<Event>, n: nat)
    requires DistinctIds(events) && n < |events| && Maps(f, events, n) && FoldOk(f') && AllThreads(f, events, n)
    requires OpensThread(events[n]) && TakenIn(f, f', events, n)
    requires f'.threads == f.threads[events[n].id := |f.objects|]
    requires f'.messageSlot == f.messageSlot[events[n].id := Slot(|f.objects|, 0)]
    ensures AllThreads(f', events, n + 1)
  {
    hide Place, ThreadIs, PutIn, PutSomewhere, OpenedBy, Opened, FoldOk;
    OwnHome(events, n);
    ThreadOpened(f'.objects[|f.objects|], events, n);
    forall d | 0 <= d < n + 1 && OpensThread(events[d]) ensures ThreadIsAt(f', events, n + 1, d) {
      if d < n {
        assert ThreadIsAt(f, events, n, d) && events[d].id != events[n].id;
        HomeIsOpened(f, events, n, d);
        assert f'.objects[f.threads[events[d].id]] == f'.objects[..|f.objects|][f.threads[events[d].id]];
        OtherIsKept(f, f', events, n, d);
      }
    }
    forall k | 0 <= k < n + 1 && Home(events, k).Some? ensures SlotIsPlace(f', events, k) {
      if k < n { SlotStaysPlace(f, f', events, n, k); }
    }
  }

  lemma WholeThread(f: Fold, events: seq<Event>, n: nat, c: nat)
    requires c < n <= |events| && FoldOk(f) && AllThreads(f, events, n) && OpensThread(events[c])
    ensures events[c].id in f.threads
    ensures var th := f.objects[f.threads[events[c].id]];
      th.id == events[c].id && |th.messages| == Places(events, n, c) >= 1 && th.ev == th.messages[0]
  {
    hide Home, Place, StandsThere, LatestIs;
    assert ThreadIsAt(f, events, n, c);
  }

  lemma ReplyThreads(f: Fold, f': Fold, events: seq<Event>, n: nat, h: string)
    requires FoldOk(f) && FoldOk(f') && n < |events| && f' == Step(f, events[n], h)
    requires DistinctIds(events) && Maps(f, events, n) && AllThreads(f, events, n)
    requires events[n].kind.ReplyTo?
    ensures AllThreads(f', events, n + 1)
  {
    hide Home, LeadsTo, Addressed, Maps, AllThreads, HumanStatus;
    HomeOfReply(events, n);
    AddressedIs(f, events, n);
    var c := LeadsTo(events, n);
    if c.Some? {
      HomeIsOpened(f, events, n, c.value);
      WholeThread(f, events, n, c.value);
      var t := f.threads[events[c.value].id];
      OneThreadChanged(f, f', events, n, c.value, t, |f.objects[t].messages|);
    } else {
      NoThreadChanged(f, f', events, n);
    }
  }

  lemma EditThreads(f: Fold, f': Fold, events: seq<Event>, n: nat, h: string)
    requires FoldOk(f) && FoldOk(f') && n < |events| && f' == Step(f, events[n], h)
    requires DistinctIds(events) && Maps(f, events, n) && AllThreads(f, events, n)
    requires events[n].kind.Edit? && events[n].actor.Human?
    ensures AllThreads(f', events, n + 1)
  {
    hide Home, Edited, Maps, AllThreads, HumanStatus;
    OwnHome(events, n);
    EditedIs(f, events, n);
    var c := Home(events, n);
    if c.Some? {
      HomeOpens(events, n);
      HomeIsOpened(f, events, n, c.value);
      WholeThread(f, events, n, c.value);
      EditPlace(f, events, n);
      OneThreadChanged(f, f', events, n, c.value, f.threads[events[c.value].id], EditIndex(f, events[n]));
    } else {
      NoThreadChanged(f, f', events, n);
    }
  }

  /** The index an edit writes to is the place the list gives it. */
  lemma EditPlace(f: Fold, events: seq<Event>, n: nat)
    requires DistinctIds(events) && n < |events| && Maps(f, events, n) && AllThreads(f, events, n)
    requires events[n].kind.Edit? && events[n].actor.Human? && Home(events, n).Some? && Edited(f, events[n]).Some?
    requires events[Home(events, n).value].id in f.threads
    requires Edited(f, events[n]).value == f.threads[events[Home(events, n).value].id] < |f.objects|
    requires Home(events, n).value < n && OpensThread(events[Home(events, n).value])
    ensures EditIndex(f, events[n]) == Place(events, n)
    ensures var m := |f.objects[Edited(f, events[n]).value].messages|;
      EditIndex(f, events[n]) <= m && (TakesNewPlace(events, n) <==> EditIndex(f, events[n]) == m)
  {
    hide Maps, Opened, ThreadIs;
    MapsFold(f, events, n);
    var e := events[n];
    HomeIsMapped(f, events, n, e.supersedes);
    WholeThread(f, events, n, Home(events, n).value);
    if e.supersedes in f.messageSlot {
      var m := Earlier(events, n, e.supersedes).value;
      assert SlotIsPlace(f, events, m);
      PlaceWithin(events, m, n);
    }
  }

  lemma CommentThreads(f: Fold, f': Fold, events: seq<Event>, n: nat, h: string)
    requires FoldOk(f) && FoldOk(f') && n < |events| && f' == Step(f, events[n], h)
    requires DistinctIds(events) && Maps(f, events, n) && AllThreads(f, events, n) && OpensThread(events[n])
    ensures AllThreads(f', events, n + 1)
  {
    hide Home, Maps, AllThreads, HumanStatus, TakenIn;
    TakesComment(f, events, n, h);
    ThreadAdded(f, f', events, n);
  }

  lemma OtherThreads(f: Fold, f': Fold, events: seq<Event>, n: nat, h: string)
    requires FoldOk(f) && FoldOk(f') && n < |events| && f' == Step(f, events[n], h)
    requires DistinctIds(events) && Maps(f, events, n) && AllThreads(f, events, n)
    requires !OpensThread(events[n]) && !events[n].kind.ReplyTo? && !(events[n].kind.Edit? && events[n].actor.Human?)
    ensures AllThreads(f', events, n + 1)
  {
    hide Home, Maps, AllThreads, Addressed;
    HomeOfReply(events, n);
    NoThreadChanged(f, f', events, n);
  }

  lemma StepTakesIn(f: Fold, events: seq<Event>, n: nat, h: string)
    requires DistinctIds(events) && n < |events| && Maps(f, events, n) && AllThreads(f, events, n)
    ensures var f' := Step(f, events[n], h);
      TakenIn(f, f', events, n) && Maps(f', events, n + 1) && FoldOk(f') && AllThreads(f', events, n + 1)
  {
    hide Home, Maps, AllThreads, TakenIn, Step, DistinctIds;
    MapsFold(f, events, n);
    StepKeepsOk(f, events[n], h);
    var f' := Step(f, events[n], h);
    if OpensThread(events[n]) {
      TakesComment(f, events, n, h);
      CommentThreads(f, f', events, n, h);
    } else if events[n].kind.ReplyTo? {
      TakesReply(f, events, n, h);
      ReplyThreads(f, f', events, n, h);
    } else if events[n].kind.Edit? && events[n].actor.Human? {
      TakesEdit(f, events, n, h);
      EditThreads(f, f', events, n, h);
    } else {
      TakesOther(f, events, n, h);
      OtherThreads(f, f', events, n, h);
    }
  }

  lemma NothingYet(events: seq<Event>)
    ensures Maps(NOTHING, events, 0) && AllThreads(NOTHING, events, 0)
  {
  }

  lemma {:induction false} FoldMaps(events: seq<Event>, n: nat, h: string)
    requires n <= |events| && DistinctIds(events)
    ensures Maps(FoldUpTo(events, n, h), events, n) && AllThreads(FoldUpTo(events, n, h), events, n)
  {
    hide Step, Maps, AllThreads, FoldOk, TakenIn, DistinctIds;
    if n == 0 {
      NothingYet(events);
    } else {
      FoldMaps(events, n - 1, h);
      StepTakesIn(FoldUpTo(events, n - 1, h), events, n - 1, h);
    }
  }

  /** With distinct ids, every event of the list is taken in as the list says, step by step. */
  lemma EveryEventIsTakenIn(events: seq<Event>, n: nat, h: string)
    requires n < |events| && DistinctIds(events)
    ensures TakenIn(FoldUpTo(events, n, h), FoldUpTo(events, n + 1, h), events, n)
  {
    hide Step, Maps, AllThreads, FoldOk, TakenIn, DistinctIds;
    FoldMaps(events, n, h);
    StepTakesIn(FoldUpTo(events, n, h), events, n, h);
  }

  /** With distinct ids, the threads of a list of events are those its human comments open, no more and no fewer. Each
      shows, at each of its places, the last event the list gives that place: a comment and each reply or unmatched
      edit takes a new place, and an edit the place of what it supersedes. Its latest human message is the last event
      of a human in it. */
  lemma ThreadsExactly(events: seq<Event>)
    requires DistinctIds(events)
    ensures var threads := Threads(FoldEvents(events));
      && (forall id :: id in threads <==> exists c :: 0 <= c < |events| && OpensThread(events[c]) && events[c].id == id)
      && (forall c :: 0 <= c < |events| && OpensThread(events[c]) ==>
            events[c].id in threads && ThreadIs(threads[events[c].id], events, |events|, c))
  {
    hide ThreadIs, PutIn, PutSomewhere, FoldUpTo, Home, SlotIsPlace;
    var f := FoldEvents(events);
    FoldMaps(events, |events|, LastHandoff(events));
    forall id | id in f.threads ensures exists c :: 0 <= c < |events| && OpensThread(events[c]) && events[c].id == id {
      assert OpenedBy(events, |events|, id);
      var c :| 0 <= c < |events| && events[c].id == id && OpensThread(events[c]);
    }
    forall c | 0 <= c < |events| && OpensThread(events[c])
      ensures events[c].id in f.threads && ThreadIs(f.objects[f.threads[events[c].id]], events, |events|, c)
    {
      assert ThreadIsAt(f, events, |events|, c);
    }
  }

  /** Thread t of the fold is the one comment c opened, and shows event m. */
  ghost predicate ShowsMessage(f: Fold, t: nat, e: Event) {
    t < |f.objects| && e in f.objects[t].messages
  }

  lemma SameIdSameEvent(events: seq<Event>, k: nat, m: nat)
    requires DistinctIds(events) && k < |events| && m < |events| && events[k].id == events[m].id
    ensures k == m
  {
  }

  lemma ShownIsHome(f: Fold, events: seq<Event>, n: nat, c: nat, m: nat)
    requires DistinctIds(events) && n <= |events| && c < n && m < n && Maps(f, events, n) && AllThreads(f, events, n)
    requires OpensThread(events[c]) && events[c].id in f.threads && ShowsMessage(f, f.threads[events[c].id], events[m])
    ensures HomeOf(events, n, events[m].id) == Some(c)
  {
    hide Home, Maps, Place, LatestIs;
    MapsFold(f, events, n);
    assert ThreadIsAt(f, events, n, c);
    var th := f.objects[f.threads[events[c].id]];
    var j :| 0 <= j < |th.messages| && th.messages[j] == events[m];
    assert StandsThere(th.messages[j], events, n, c, j);
    var k: nat :| Stands(events, n, c, j, k) && th.messages[j] == events[k];
    EarlierIs(events, n, m);
    assert k == m by { SameIdSameEvent(events, k, m); }
  }

  /** Event n leads to the thread of comment c: by naming it, or, naming none, by responding to a message it shows. */
  ghost predicate Speaks(f: Fold, events: seq<Event>, n: nat, c: nat)
    requires n < |events|
  {
    && c < n && OpensThread(events[c]) && events[c].id != "" && events[c].id in f.threads
    && if events[n].threadId != "" then events[n].threadId == events[c].id
       else RespondsToShown(f, f.threads[events[c].id], events, n)
  }

  ghost predicate RespondsToShown(f: Fold, t: nat, events: seq<Event>, n: nat)
    requires n < |events|
  {
    exists m :: 0 <= m < n && events[m].id == events[n].respondsTo && ShowsMessage(f, t, events[m])
  }

  lemma SpeaksLeads(f: Fold, events: seq<Event>, n: nat, c: nat)
    requires DistinctIds(events) && n < |events| && Maps(f, events, n) && AllThreads(f, events, n)
    requires Speaks(f, events, n, c)
    ensures LeadsTo(events, n) == Some(c)
  {
    hide Home, Maps, ThreadIs;
    EarlierIs(events, n, c);
    if events[n].threadId == "" {
      var m :| 0 <= m < n && events[m].id == events[n].respondsTo
        && ShowsMessage(f, f.threads[events[c].id], events[m]);
      ShownIsHome(f, events, n, c, m);
    }
  }

  /** A reply, whoever wrote it, goes last in the thread of the comment it names or, naming none, in the thread that
      shows the message it responds to; a status sets that thread's status. What leads to no thread is left out. */
  lemma RepliesFindTheirThread(events: seq<Event>, n: nat, c: nat, h: string)
    requires DistinctIds(events) && n < |events| && (events[n].kind.ReplyTo? || events[n].kind.StatusOf?)
    ensures var f, f' := FoldUpTo(events, n, h), FoldUpTo(events, n + 1, h);
      && (Speaks(f, events, n, c) ==>
            var t := f.threads[events[c].id];
            && t < |f.objects| == |f'.objects|
            && (forall k :: 0 <= k < |f.objects| && k != t ==> f'.objects[k] == f.objects[k])
            && f'.objects[t].messages == f.objects[t].messages + (if events[n].kind.ReplyTo? then [events[n]] else [])
            && (events[n].kind.StatusOf? ==> f'.objects[t].status == events[n].status))
      && (f' == f <== LeadsTo(events, n).None?)
      && (events[n].kind.ReplyTo? && f' == f ==> LeadsTo(events, n).None?)
  {
    hide Step, Maps, AllThreads, FoldOk, DistinctIds, LeadsTo, FoldUpTo;
    FoldMaps(events, n, h);
    EveryEventIsTakenIn(events, n, h);
    HomeOfReply(events, n);
    var f := FoldUpTo(events, n, h);
    if Speaks(f, events, n, c) {
      SpeaksLeads(f, events, n, c);
    }
  }

  // Statuses.

  /** Event k sets the status of the thread comment c opened. */
  ghost predicate SetsStatus(events: seq<Event>, k: nat, c: nat)
    requires k < |events|
  {
    var e := events[k];
    if OpensThread(e) then k == c
    else if e.kind.ReplyTo? then
      Home(events, k) == Some(c) && (e.actor.Human? || LatestIs(e.respondsTo, events, k, c))
    else if e.kind.Edit? && e.actor.Human? then Home(events, k) == Some(c)
    else e.kind.StatusOf? && LeadsTo(events, k) == Some(c)
  }

  ghost predicate LastToSet(events: seq<Event>, n: nat, c: nat, k: nat)
    requires n <= |events|
  {
    k < n && SetsStatus(events, k, c) && forall m :: k < m < n ==> !SetsStatus(events, m, c)
  }

  ghost predicate StatusIs(status: string, events: seq<Event>, n: nat, h: string, c: nat)
    requires n <= |events|
  {
    exists k: nat :: LastToSet(events, n, c, k) && status == Given(events[k], h)
  }

  lemma StatusNow(status: string, events: seq<Event>, n: nat, h: string, c: nat)
    requires n < |events|
    ensures SetsStatus(events, n, c) ==> StatusIs(Given(events[n], h), events, n + 1, h, c)
    ensures !SetsStatus(events, n, c) && StatusIs(status, events, n, h, c) ==> StatusIs(status, events, n + 1, h, c)
  {
    hide SetsStatus, Given;
    if SetsStatus(events, n, c) { assert LastToSet(events, n + 1, c, n); }
    else if StatusIs(status, events, n, h, c) {
      var k: nat :| LastToSet(events, n, c, k) && status == Given(events[k], h);
      assert LastToSet(events, n + 1, c, k);
    }
  }

  lemma LatestIsUnique(id: string, id': string, events: seq<Event>, n: nat, c: nat)
    requires n <= |events| && LatestIs(id, events, n, c) && LatestIs(id', events, n, c)
    ensures id == id'
  {
    hide Home;
    var k: nat :| LatestHuman(events, n, c, k) && id == events[k].id;
    var m: nat :| LatestHuman(events, n, c, m) && id' == events[m].id;
  }

  /** The thread object whose status the fold sets at event n is the one the list says. */
  lemma SetByIsListed(f: Fold, events: seq<Event>, n: nat, c: nat)
    requires DistinctIds(events) && n < |events| && Maps(f, events, n) && AllThreads(f, events, n)
    requires c < n && OpensThread(events[c])
    ensures events[c].id in f.threads
    ensures SetBy(f, events[n]) == Some(f.threads[events[c].id]) <==> SetsStatus(events, n, c)
  {
    hide Home, LeadsTo, Maps, Addressed, Edited, LatestIs, StandsThere, Places;
    MapsFold(f, events, n);
    HomeIsOpened(f, events, n, c);
    HomeOfReply(events, n);
    AddressedIs(f, events, n);
    assert ThreadIsAt(f, events, n, c);
    if LatestIs(events[n].respondsTo, events, n, c) {
      LatestIsUnique(events[n].respondsTo, f.objects[f.threads[events[c].id]].latestHumanId, events, n, c);
    }
    if events[n].kind.Edit? && events[n].actor.Human? {
      EditedIs(f, events, n);
      OwnHome(events, n);
    }
    var d := if events[n].kind.Edit? then Home(events, n) else LeadsTo(events, n);
    if d.Some? && d != Some(c) && d.value < n && OpensThread(events[d.value]) {
      ThreadsApart(f, events, n, c, d.value);
    }
    LeadsBack(events, n);
  }

  lemma LeadsBack(events: seq<Event>, n: nat)
    requires n < |events|
    ensures LeadsTo(events, n).Some? ==> LeadsTo(events, n).value < n && OpensThread(events[LeadsTo(events, n).value])
    ensures Home(events, n).Some? && !OpensThread(events[n]) ==>
      Home(events, n).value < n && OpensThread(events[Home(events, n).value])
  {
  }

  ghost predicate Statuses(f: Fold, events: seq<Event>, n: nat, h: string)
    requires n <= |events| && FoldOk(f)
  {
    forall c :: 0 <= c < n && OpensThread(events[c]) ==>
      events[c].id in f.threads && StatusIs(f.objects[f.threads[events[c].id]].status, events, n, h, c)
  }

  lemma SetByComment(f: Fold, events: seq<Event>, n: nat)
    requires FoldOk(f) && n < |events| && OpensThread(events[n])
    ensures SetBy(f, events[n]) == Some(|f.objects|) && SetsStatus(events, n, n)
    ensures forall h :: Step(f, events[n], h).threads == f.threads[events[n].id := |f.objects|]
  {
  }

  lemma ThreadsAreKept(f: Fold, events: seq<Event>, n: nat, h: string)
    requires FoldOk(f) && n < |events| && !OpensThread(events[n])
    ensures Step(f, events[n], h).threads == f.threads
  {
  }

  lemma StatusOfThread(f: Fold, f': Fold, events: seq<Event>, n: nat, h: string, c: nat)
    requires DistinctIds(events) && n < |events| && Maps(f, events, n) && AllThreads(f, events, n) && FoldOk(f')
    requires f' == Step(f, events[n], h) && Statuses(f, events, n, h)
    requires c < n + 1 && OpensThread(events[c])
    ensures events[c].id in f'.threads && StatusIs(f'.objects[f'.threads[events[c].id]].status, events, n + 1, h, c)
  {
    hide Step, Maps, AllThreads, SetBy, Given, StatusIs, SetsStatus;
    MapsFold(f, events, n);
    if OpensThread(events[n]) { SetByComment(f, events, n); } else { ThreadsAreKept(f, events, n, h); }
    if c < n {
      HomeIsOpened(f, events, n, c);
      SetByIsListed(f, events, n, c);
      assert events[c].id != events[n].id;
    }
    var t := f'.threads[events[c].id];
    StepSets(f, events[n], h, t);
    StatusNow(if t < |f.objects| then f.objects[t].status else "", events, n, h, c);
  }

  lemma {:induction false} FoldStatuses(events: seq<Event>, n: nat, h: string)
    requires n <= |events| && DistinctIds(events)
    ensures Statuses(FoldUpTo(events, n, h), events, n, h)
  {
    hide Step, Maps, AllThreads, DistinctIds, StatusIs;
    if n > 0 {
      FoldStatuses(events, n - 1, h);
      FoldMaps(events, n - 1, h);
      var f, f' := FoldUpTo(events, n - 1, h), FoldUpTo(events, n, h);
      forall c | 0 <= c < n && OpensThread(events[c])
        ensures events[c].id in f'.threads && StatusIs(f'.objects[f'.threads[events[c].id]].status, events, n, h, c)
      {
        StatusOfThread(f, f', events, n - 1, h, c);
      }
    }
  }

  /** With distinct ids, a thread's status is what the last event that set it gave: the comment itself, a human's reply
      or edit in it, an agent's answer to its latest human message, or a status that leads to it. */
  lemma StatusesExactly(events: seq<Event>, c: nat)
    requires DistinctIds(events) && c < |events| && OpensThread(events[c])
    ensures var threads := Threads(FoldEvents(events));
      events[c].id in threads && StatusIs(threads[events[c].id].status, events, |events|, LastHandoff(events), c)
  {
    hide StatusIs, FoldUpTo, DistinctIds;
    FoldStatuses(events, |events|, LastHandoff(events));
  }

  // The order of the threads, and the hand-off button.

  /** The ids of the comments that open threads, in the order of the list. */
  function CommentIds(events: seq<Event>, n: nat): seq<string>
    requires n <= |events|
  {
    if n == 0 then []
    else CommentIds(events, n - 1) + if OpensThread(events[n - 1]) then [events[n - 1].id] else []
  }

  lemma StepOrders(f: Fold, events: seq<Event>, n: nat, h: string)
    requires DistinctIds(events) && n < |events| && Maps(f, events, n)
    ensures FoldOk(f)
    ensures Step(f, events[n], h).order == f.order + if OpensThread(events[n]) then [events[n].id] else []
  {
    hide Home, PutIn, PutSomewhere, Opened;
    assert events[n].id in f.threads ==> OpenedBy(events, n, events[n].id);
  }

  lemma {:induction false} OrderIsListed(events: seq<Event>, n: nat, h: string)
    requires n <= |events| && DistinctIds(events)
    ensures FoldUpTo(events, n, h).order == CommentIds(events, n)
  {
    hide Step, Maps, AllThreads, FoldOk, DistinctIds;
    if n > 0 {
      OrderIsListed(events, n - 1, h);
      FoldMaps(events, n - 1, h);
      StepOrders(FoldUpTo(events, n - 1, h), events, n - 1, h);
    }
  }

  /** The threads whose status is draft, among those of the first n comments. */
  ghost function DraftIds(f: Fold, ids: seq<string>): set<string>
    requires FoldOk(f)
  {
    set id | id in ids && id in f.threads && f.objects[f.threads[id]].status == "draft"
  }

  ghost predicate Distinct(ids: seq<string>) {
    forall i, k :: 0 <= i < k < |ids| ==> ids[i] != ids[k]
  }

  lemma {:induction false} DraftsAreCounted(f: Fold, n: nat)
    requires FoldOk(f) && n <= |f.order| && Distinct(f.order)
    ensures DraftsUpTo(f, n) == |DraftIds(f, f.order[..n])|
  {
    hide FoldOk;
    if n > 0 {
      DraftsAreCounted(f, n - 1);
      var id := f.order[n - 1];
      assert f.order[..n] == f.order[..n - 1] + [id];
      OneMoreDraft(f, f.order[..n - 1], id);
    }
  }

  lemma OneMoreDraft(f: Fold, ids: seq<string>, id: string)
    requires FoldOk(f) && id !in ids
    ensures |DraftIds(f, ids + [id])|
      == |DraftIds(f, ids)| + if id in f.threads && f.objects[f.threads[id]].status == "draft" then 1 else 0
  {
    if id in f.threads && f.objects[f.threads[id]].status == "draft" {
      assert DraftIds(f, ids + [id]) == DraftIds(f, ids) + {id};
    } else {
      assert DraftIds(f, ids + [id]) == DraftIds(f, ids);
    }
  }

  lemma {:induction false} CommentIdsFacts(events: seq<Event>, n: nat)
    requires n <= |events| && DistinctIds(events)
    ensures Distinct(CommentIds(events, n))
    ensures forall id :: id in CommentIds(events, n) <==> OpenedBy(events, n, id)
  {
    if n > 0 {
      CommentIdsFacts(events, n - 1);
      var ids := CommentIds(events, n - 1);
      forall id ensures id in CommentIds(events, n) <==> OpenedBy(events, n, id) {
        if OpenedBy(events, n - 1, id) {
          var c :| 0 <= c < n - 1 && events[c].id == id && OpensThread(events[c]);
          assert 0 <= c < n;
        }
        if id == events[n - 1].id && OpensThread(events[n - 1]) { assert 0 <= n - 1 < n; }
      }
      assert events[n - 1].id in ids ==> OpenedBy(events, n - 1, events[n - 1].id);
    }
  }

  lemma ButtonOf(f: Fold, hasTbd: bool)
    requires FoldOk(f) && Distinct(f.order) && forall id :: id in f.threads ==> id in f.order
    ensures var threads := Threads(f); var state := ReviewHandoffState(f, hasTbd);
      && state.drafts == |set id | id in threads && threads[id].status == "draft"|
      && (state.finish <==> !hasTbd && forall id :: id in threads ==> threads[id].status == "resolved")
      && (state.enabled <==> state.finish || exists id :: id in threads && threads[id].status == "draft")
  {
    hide Distinct, DraftsUpTo, SlotOk;
    var threads := Threads(f);
    DraftsAreCounted(f, |f.order|);
    assert f.order[..|f.order|] == f.order;
    var drafts := set id | id in threads && threads[id].status == "draft";
    SameDrafts(f);
    if id :| id in threads && threads[id].status == "draft" {
      assert id in drafts && drafts != {};
      assert threads[id].status != "resolved" by { assert |"draft"| != |"resolved"|; }
    } else {
      assert drafts == {};
    }
    assert forall id :: id in f.threads ==> threads[id] == f.objects[f.threads[id]];
  }

  lemma SameDrafts(f: Fold)
    requires FoldOk(f) && forall id :: id in f.threads ==> id in f.order
    ensures DraftIds(f, f.order) == set id | id in Threads(f) && Threads(f)[id].status == "draft"
  {
  }

  /** What the hand-off button shows, with distinct ids: the number of draft threads; finishing is offered exactly when
      nothing is to be decided and every thread is resolved (and so none is a draft); and it is enabled when there is
      a draft to hand off or the review can finish. The threads come in the order of their comments. */
  lemma HandoffButtonExactly(events: seq<Event>, hasTbd: bool)
    requires DistinctIds(events)
    ensures var threads := Threads(FoldEvents(events)); var state := ReviewHandoffState(FoldEvents(events), hasTbd);
      && state.drafts == |set id | id in threads && threads[id].status == "draft"|
      && (state.finish <==> !hasTbd && forall id :: id in threads ==> threads[id].status == "resolved")
      && (state.enabled <==> state.finish || exists id :: id in threads && threads[id].status == "draft")
    ensures FoldEvents(events).order == CommentIds(events, |events|)
  {
    hide FoldUpTo, DistinctIds, CommentIds, PutIn, PutSomewhere, Opened, Home, ReviewHandoffState, Threads, Distinct,
      OpenedBy, AllThreads;
    var f := FoldEvents(events);
    FoldMaps(events, |events|, LastHandoff(events));
    OrderIsListed(events, |events|, LastHandoff(events));
    CommentIdsFacts(events, |events|);
    ButtonOf(f, hasTbd);
  }
}
