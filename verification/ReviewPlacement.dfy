/** Which thread an event belongs to, said over the list of events and not through the maps the fold keeps:
    `foldThreads` of docs/specs/.viz/runtime.js. */
module ReviewPlacement {
  import opened Prelude
  import opened ReviewThreads
  import opened ReviewTheorems

  predicate OpensThread(e: Event) { e.kind.Comment? && e.actor.Human? }

  /** The event before event k that has this id. */
  function Earlier(events: seq<Event>, k: nat, id: string): (m: Option<nat>)
    requires k <= |events|
    ensures m.Some? ==> m.value < k && events[m.value].id == id
    ensures m.None? ==> forall i :: 0 <= i < k ==> events[i].id != id
  {
    if k == 0 then None else if events[k - 1].id == id then Some(k - 1) else Earlier(events, k - 1, id)
  }

  /** The comment before event k that a thread id names. */
  function CommentNamed(events: seq<Event>, k: nat, id: string): (c: Option<nat>)
    requires k <= |events|
    ensures c.Some? ==> c.value < k && OpensThread(events[c.value]) && events[c.value].id == id != ""
  {
    match Earlier(events, k, id)
    case Some(c) => if id != "" && OpensThread(events[c]) then Some(c) else None
    case None => None
  }

  /** The comment that opened the thread a message of this id was put in, before event k. */
  function HomeOf(events: seq<Event>, k: nat, id: string): (c: Option<nat>)
    requires k <= |events|
    ensures c.Some? ==> c.value < k && OpensThread(events[c.value])
    decreases k, 0
  {
    match Earlier(events, k, id) case Some(m) => Home(events, m) case None => None
  }

  /** Where a reply or a status leads: to the comment its thread id names, or, without a thread id, to the thread of
      the message it responds to. (A comment without an id takes no replies.) */
  function LeadsTo(events: seq<Event>, k: nat): (c: Option<nat>)
    requires k < |events|
    ensures c.Some? ==> c.value < k && OpensThread(events[c.value]) && events[c.value].id != ""
    decreases k, 1
  {
    var e := events[k];
    if e.threadId != "" then CommentNamed(events, k, e.threadId)
    else
      match HomeOf(events, k, e.respondsTo)
      case Some(c) => if events[c].id != "" then Some(c) else None
      case None => None
  }

  /** The comment that opened the thread event k is put in: its own, the one its reply leads to, or, for an edit, that
      of the message it supersedes, or else the one its thread id names. */
  function Home(events: seq<Event>, k: nat): (c: Option<nat>)
    requires k < |events|
    ensures c.Some? ==> c.value <= k && OpensThread(events[c.value])
    decreases k, 2
  {
    var e := events[k];
    if OpensThread(e) then Some(k)
    else if e.kind.ReplyTo? then LeadsTo(events, k)
    else if e.kind.Edit? && e.actor.Human? then
      var prior := HomeOf(events, k, e.supersedes);
      if prior.Some? then prior else CommentNamed(events, k, e.threadId)
    else None
  }

  // The maps of the fold follow the list.

  ghost predicate Opened(f: Fold, events: seq<Event>, c: nat)
    requires FoldOk(f) && c < |events|
  {
    events[c].id in f.threads && f.objects[f.threads[events[c].id]].id == events[c].id
  }

  /** Event k was put in the thread that comment c opened. */
  ghost predicate PutIn(f: Fold, events: seq<Event>, k: nat, c: nat)
    requires FoldOk(f) && k < |events| && c < |events|
  {
    && events[k].id in f.messageThread && f.messageThread[events[k].id] == events[c].id
    && events[k].id in f.messageSlot && events[c].id in f.threads
    && f.messageSlot[events[k].id].thread == f.threads[events[c].id]
  }

  ghost predicate PutSomewhere(events: seq<Event>, n: nat, id: string)
    requires n <= |events|
  {
    exists k :: 0 <= k < n && events[k].id == id && Home(events, k).Some?
  }

  ghost predicate OpenedBy(events: seq<Event>, n: nat, id: string)
    requires n <= |events|
  {
    exists c :: 0 <= c < n && events[c].id == id && OpensThread(events[c])
  }

  ghost predicate Maps(f: Fold, events: seq<Event>, n: nat)
    requires n <= |events|
  {
    && FoldOk(f)
    && (forall c :: 0 <= c < n && OpensThread(events[c]) ==> Opened(f, events, c))
    && (forall k :: 0 <= k < n && Home(events, k).Some? ==> PutIn(f, events, k, Home(events, k).value))
    && (forall id :: id in f.threads ==> OpenedBy(events, n, id))
    && (forall id :: id in f.messageThread || id in f.messageSlot ==> PutSomewhere(events, n, id))
  }

  lemma EarlierIs(events: seq<Event>, n: nat, m: nat)
    requires DistinctIds(events) && m < n <= |events|
    ensures Earlier(events, n, events[m].id) == Some(m)
  {
    var found := Earlier(events, n, events[m].id);
    assert found.Some?;
  }

  /** The thread a list of events names is the one the fold's `threads` map holds. */
  lemma NamedIsMapped(f: Fold, events: seq<Event>, n: nat, id: string)
    requires DistinctIds(events) && n <= |events| && Maps(f, events, n)
    ensures ThreadAt(f, id) == match CommentNamed(events, n, id) case Some(c) => Some(f.threads[id]) case None => None
    ensures CommentNamed(events, n, id).Some? ==> id in f.threads
  {
    hide PutIn, FoldOk;
    if id in f.threads {
      assert OpenedBy(events, n, id);
      var c :| 0 <= c < n && events[c].id == id && OpensThread(events[c]);
      EarlierIs(events, n, c);
    }
    var named := CommentNamed(events, n, id);
    if named.Some? { assert Opened(f, events, named.value); }
  }

  lemma HomeIsMapped(f: Fold, events: seq<Event>, n: nat, id: string)
    requires DistinctIds(events) && n <= |events| && Maps(f, events, n)
    ensures HomeOf(events, n, id).Some? <==> id in f.messageThread
    ensures HomeOf(events, n, id).Some? <==> id in f.messageSlot
    ensures HomeOf(events, n, id).Some? ==>
      var c := HomeOf(events, n, id).value;
      && f.messageThread[id] == events[c].id && events[c].id in f.threads
      && f.messageSlot[id].thread == f.threads[events[c].id]
  {
    hide FoldOk;
    if id in f.messageThread || id in f.messageSlot {
      assert PutSomewhere(events, n, id);
      var k :| 0 <= k < n && events[k].id == id && Home(events, k).Some?;
      EarlierIs(events, n, k);
    }
    var m := Earlier(events, n, id);
    if m.Some? && Home(events, m.value).Some? { assert PutIn(f, events, m.value, Home(events, m.value).value); }
  }

  lemma AddressedIs(f: Fold, events: seq<Event>, n: nat)
    requires DistinctIds(events) && n < |events| && Maps(f, events, n)
    ensures var c := LeadsTo(events, n);
      && (c.Some? ==> events[c.value].id in f.threads)
      && ThreadAt(f, Addressed(f, events[n])) == if c.Some? then Some(f.threads[events[c.value].id]) else None
  {
    hide Maps, Home;
    var e := events[n];
    NamedIsMapped(f, events, n, e.threadId);
    HomeIsMapped(f, events, n, e.respondsTo);
    if e.respondsTo in f.threads {
      CommentsHaveAHome(f, events, n, e.respondsTo);
    }
  }

  lemma CommentsHaveAHome(f: Fold, events: seq<Event>, n: nat, id: string)
    requires DistinctIds(events) && n <= |events| && Maps(f, events, n) && id in f.threads
    ensures HomeOf(events, n, id).Some? && events[HomeOf(events, n, id).value].id == id
  {
    assert OpenedBy(events, n, id);
    var c :| 0 <= c < n && events[c].id == id && OpensThread(events[c]);
    EarlierIs(events, n, c);
  }

  lemma EditedIs(f: Fold, events: seq<Event>, n: nat)
    requires DistinctIds(events) && n < |events| && Maps(f, events, n) && events[n].kind.Edit? && events[n].actor.Human?
    ensures var c := Home(events, n);
      && (c.Some? ==> events[c.value].id in f.threads)
      && Edited(f, events[n]) == if c.Some? then Some(f.threads[events[c.value].id]) else None
  {
    hide Maps;
    var e := events[n];
    NamedIsMapped(f, events, n, e.threadId);
    HomeIsMapped(f, events, n, e.supersedes);
  }

  lemma SomewhereGrows(events: seq<Event>, n: nat, id: string)
    requires n < |events|
    ensures PutSomewhere(events, n, id) ==> PutSomewhere(events, n + 1, id)
    ensures OpenedBy(events, n, id) ==> OpenedBy(events, n + 1, id)
    ensures Home(events, n).Some? ==> PutSomewhere(events, n + 1, events[n].id)
    ensures OpensThread(events[n]) ==> OpenedBy(events, n + 1, events[n].id)
  {
    hide Home;
    if PutSomewhere(events, n, id) {
      var k :| 0 <= k < n && events[k].id == id && Home(events, k).Some?;
      assert 0 <= k < n + 1;
    }
    if OpenedBy(events, n, id) {
      var c :| 0 <= c < n && events[c].id == id && OpensThread(events[c]);
      assert 0 <= c < n + 1;
    }
    assert 0 <= n < n + 1;
  }

  /** What the maps need of a step: threads keep their ids, and the event's own id leads to its home. */
  ghost predicate Placed(f: Fold, f': Fold, events: seq<Event>, n: nat, c: nat, t: nat)
    requires FoldOk(f) && n < |events| && c < |events|
  {
    && FoldOk(f') && |f.objects| <= |f'.objects|
    && (forall k :: 0 <= k < |f.objects| ==> f'.objects[k].id == f.objects[k].id)
    && t < |f'.objects| && f'.objects[t].id == events[c].id
    && f'.messageThread == f.messageThread[events[n].id := events[c].id]
    && events[n].id in f'.messageSlot && f'.messageSlot == f.messageSlot[events[n].id := f'.messageSlot[events[n].id]]
    && f'.messageSlot[events[n].id].thread == t
    && f'.threads == (if c == n then f.threads[events[n].id := t] else f.threads)
    && events[c].id in f'.threads && f'.threads[events[c].id] == t
  }

  lemma PlacedKeepsMaps(f: Fold, f': Fold, events: seq<Event>, n: nat, c: nat, t: nat)
    requires DistinctIds(events) && n < |events| && Maps(f, events, n) && Home(events, n) == Some(c)
    requires Placed(f, f', events, n, c, t)
    ensures Maps(f', events, n + 1)
  {
    hide Home, PutSomewhere, OpenedBy;
    forall k | 0 <= k < n + 1 && Home(events, k).Some? ensures PutIn(f', events, k, Home(events, k).value) {
      if k < n { assert PutIn(f, events, k, Home(events, k).value); HomeBefore(events, k, n); }
    }
    forall d | 0 <= d < n + 1 && OpensThread(events[d]) ensures Opened(f', events, d) {
      if d < n { assert Opened(f, events, d); } else { OwnHome(events, n); }
    }
    forall id | id in f'.threads
      ensures OpenedBy(events, n + 1, id)
    {
      SomewhereGrows(events, n, id);
      OwnHome(events, n);
    }
    forall id | id in f'.messageThread || id in f'.messageSlot ensures PutSomewhere(events, n + 1, id) {
      SomewhereGrows(events, n, id);
    }
  }

  lemma HomeBefore(events: seq<Event>, k: nat, n: nat)
    requires k < n < |events| && DistinctIds(events) && Home(events, k).Some?
    ensures events[k].id != events[n].id && events[Home(events, k).value].id != events[n].id
  {
  }

  lemma OwnHome(events: seq<Event>, n: nat)
    requires n < |events|
    ensures Home(events, n) == Some(n) <==> OpensThread(events[n])
  {
  }

  lemma UnplacedKeepsMaps(f: Fold, f': Fold, events: seq<Event>, n: nat)
    requires n < |events| && Maps(f, events, n) && Home(events, n).None? && FoldOk(f')
    requires f'.threads == f.threads && f'.messageThread == f.messageThread && f'.messageSlot == f.messageSlot
    requires |f'.objects| == |f.objects| && forall k :: 0 <= k < |f.objects| ==> f'.objects[k].id == f.objects[k].id
    ensures Maps(f', events, n + 1)
  {
    hide Home, PutSomewhere, OpenedBy;
    OwnHome(events, n);
    forall k | 0 <= k < n + 1 && Home(events, k).Some? ensures PutIn(f', events, k, Home(events, k).value) {
      assert PutIn(f, events, k, Home(events, k).value);
    }
    forall d | 0 <= d < n + 1 && OpensThread(events[d]) ensures Opened(f', events, d) {
      assert Opened(f, events, d);
    }
    forall id | id in f'.threads ensures OpenedBy(events, n + 1, id) { SomewhereGrows(events, n, id); }
    forall id | id in f'.messageThread || id in f'.messageSlot ensures PutSomewhere(events, n + 1, id) {
      SomewhereGrows(events, n, id);
    }
  }

  // What a step does, said over the list.

  /** Thread t gets event e as its last message; a human's is its latest human message. No other thread changes. */
  ghost predicate Added(f: Fold, f': Fold, t: nat, e: Event) {
    && t < |f.objects| == |f'.objects| && (forall k :: 0 <= k < |f.objects| && k != t ==> f'.objects[k] == f.objects[k])
    && f'.objects[t].messages == f.objects[t].messages + [e]
    && f'.objects[t].id == f.objects[t].id && f'.objects[t].ev == f.objects[t].ev
    && f'.objects[t].latestHumanId == if e.actor.Human? then e.id else f.objects[t].latestHumanId
  }

  /** Thread t shows event e in place of message `index`, or after its messages; e is its latest human message. */
  ghost predicate Revised(f: Fold, f': Fold, t: nat, index: nat, e: Event) {
    && t < |f.objects| == |f'.objects| && (forall k :: 0 <= k < |f.objects| && k != t ==> f'.objects[k] == f.objects[k])
    && index <= |f.objects[t].messages|
    && f'.objects[t].messages ==
         (if index < |f.objects[t].messages| then f.objects[t].messages[index := e] else f.objects[t].messages + [e])
    && f'.objects[t].id == f.objects[t].id && f'.objects[t].latestHumanId == e.id
    && f'.objects[t].ev == if index == 0 then e else f.objects[t].ev
  }

  /** Event n of the list, as the fold takes it: a comment opens a thread; a reply goes last in the thread it leads to;
      an edit takes the place of the message it supersedes, or goes last in the thread its thread id names; a status is
      set on the thread it leads to; and an event that leads nowhere changes nothing. */
  ghost predicate TakenIn(f: Fold, f': Fold, events: seq<Event>, n: nat)
    requires n < |events|
  {
    var e, c := events[n], Home(events, n);
    if OpensThread(e) then
      && |f'.objects| == |f.objects| + 1 && f'.objects[..|f.objects|] == f.objects
      && var th := f'.objects[|f.objects|];
         th.id == e.id && th.ev == e && th.messages == [e] && th.latestHumanId == e.id
    else if e.kind.ReplyTo? && c.Some? then
      events[c.value].id in f.threads && Added(f, f', f.threads[events[c.value].id], e)
    else if e.kind.Edit? && e.actor.Human? && c.Some? then
      && events[c.value].id in f.threads
      && var t := f.threads[events[c.value].id];
         t < |f.objects| &&
         var index :=
           if e.supersedes in f.messageSlot then f.messageSlot[e.supersedes].index else |f.objects[t].messages|;
         Revised(f, f', t, index, e)
    else if e.kind.StatusOf? && LeadsTo(events, n).Some? then
      && events[LeadsTo(events, n).value].id in f.threads
      && var t := f.threads[events[LeadsTo(events, n).value].id];
         t < |f.objects| && f' == f.(objects := f.objects[t := f.objects[t].(status := e.status)])
    else f' == f
  }

  lemma MapsFold(f: Fold, events: seq<Event>, n: nat)
    requires n <= |events| && Maps(f, events, n)
    ensures FoldOk(f)
  {
  }

  lemma TakesComment(f: Fold, events: seq<Event>, n: nat, h: string)
    requires DistinctIds(events) && n < |events| && Maps(f, events, n) && OpensThread(events[n])
    ensures var f' := Step(f, events[n], h); TakenIn(f, f', events, n) && Maps(f', events, n + 1)
  {
    hide Maps, HumanStatus;
    MapsFold(f, events, n);
    OwnHome(events, n);
    CommentKeepsOk(f, events[n], h);
    PlacedKeepsMaps(f, Step(f, events[n], h), events, n, n, |f.objects|);
  }

  lemma TakesReply(f: Fold, events: seq<Event>, n: nat, h: string)
    requires DistinctIds(events) && n < |events| && Maps(f, events, n) && events[n].kind.ReplyTo?
    ensures var f' := Step(f, events[n], h); TakenIn(f, f', events, n) && Maps(f', events, n + 1)
  {
    hide PutIn, Home, Addressed, OpenedBy, PutSomewhere;
    HomeOfReply(events, n);
    AddressedIs(f, events, n);
    StepKeepsOk(f, events[n], h);
    var c := LeadsTo(events, n);
    if c.Some? {
      assert Opened(f, events, c.value);
      PlacedKeepsMaps(f, Step(f, events[n], h), events, n, c.value, f.threads[events[c.value].id]);
    } else {
      UnplacedKeepsMaps(f, Step(f, events[n], h), events, n);
    }
  }

  lemma HomeOfReply(events: seq<Event>, n: nat)
    requires n < |events|
    ensures events[n].kind.ReplyTo? ==> Home(events, n) == LeadsTo(events, n)
    ensures !OpensThread(events[n]) && !events[n].kind.ReplyTo? && !(events[n].kind.Edit? && events[n].actor.Human?) ==>
      Home(events, n).None?
  {
  }

  lemma TakesEdit(f: Fold, events: seq<Event>, n: nat, h: string)
    requires DistinctIds(events) && n < |events| && Maps(f, events, n) && events[n].kind.Edit? && events[n].actor.Human?
    ensures var f' := Step(f, events[n], h); TakenIn(f, f', events, n) && Maps(f', events, n + 1)
  {
    hide PutIn, Home, Edited, OpenedBy, PutSomewhere;
    OwnHome(events, n);
    EditedIs(f, events, n);
    StepKeepsOk(f, events[n], h);
    var c := Home(events, n);
    if c.Some? {
      assert Opened(f, events, c.value);
      PlacedKeepsMaps(f, Step(f, events[n], h), events, n, c.value, f.threads[events[c.value].id]);
    } else {
      UnplacedKeepsMaps(f, Step(f, events[n], h), events, n);
    }
  }

  lemma TakesOther(f: Fold, events: seq<Event>, n: nat, h: string)
    requires DistinctIds(events) && n < |events| && Maps(f, events, n)
    requires !OpensThread(events[n]) && !events[n].kind.ReplyTo? && !(events[n].kind.Edit? && events[n].actor.Human?)
    ensures var f' := Step(f, events[n], h); TakenIn(f, f', events, n) && Maps(f', events, n + 1)
  {
    hide Home, Addressed, Maps;
    MapsFold(f, events, n);
    HomeOfReply(events, n);
    AddressedIs(f, events, n);
    StepKeepsOk(f, events[n], h);
    UnplacedKeepsMaps(f, Step(f, events[n], h), events, n);
  }
}
