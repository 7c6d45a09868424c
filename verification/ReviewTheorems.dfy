/** What the review fold promises: a hand-off publishes every draft and nothing else, edits keep their place, and
    clients that saw the same events show the same threads. */
module ReviewTheorems {
  import opened Prelude
  import opened ReviewThreads

  // Hand-off.

  /** Nobody but the fold itself makes a draft: no status carried by an event is "draft". */
  predicate NoDraftStatus(e: Event) {
    (e.kind.StatusOf? || (e.kind.ReplyTo? && e.actor.Agent?)) ==> e.status != "draft"
  }

  function Publish(th: Thread): Thread {
    if th.status == "draft" then th.(status := "pending") else th
  }

  function PublishAll(f: Fold): Fold {
    f.(objects := seq(|f.objects|, k requires 0 <= k < |f.objects| => Publish(f.objects[k])))
  }

  lemma PublishedOk(f: Fold)
    requires FoldOk(f)
    ensures FoldOk(PublishAll(f))
  {
    var p := PublishAll(f);
    forall m | m in p.messageSlot ensures SlotOk(p, p.messageSlot[m]) { assert SlotOk(f, f.messageSlot[m]); }
  }

  /** Two folds with the same heap and the same maps are the same. */
  lemma SameFold(p: Fold, q: Fold)
    requires |p.objects| == |q.objects| && forall k :: 0 <= k < |p.objects| ==> p.objects[k] == q.objects[k]
    requires p.threads == q.threads && p.order == q.order && p.messageThread == q.messageThread
    requires p.messageSlot == q.messageSlot
    ensures p == q
  {
  }

  lemma PublishComment(f: Fold, e: Event, before: string, after: string)
    requires !Less(after, e.name)
    ensures CommentStep(PublishAll(f), e, after) == PublishAll(CommentStep(f, e, before))
  {
    SameFold(CommentStep(PublishAll(f), e, after), PublishAll(CommentStep(f, e, before)));
  }

  lemma PublishReplied(th: Thread, e: Event, before: string, after: string)
    requires e.kind.ReplyTo? && NoDraftStatus(e) && !Less(after, e.name)
    ensures Replied(Publish(th), e, after) == Publish(Replied(th, e, before))
  {
  }

  lemma PublishReply(f: Fold, e: Event, before: string, after: string)
    requires FoldOk(f) && FoldOk(PublishAll(f)) && e.kind.ReplyTo? && NoDraftStatus(e) && !Less(after, e.name)
    ensures ReplyStep(PublishAll(f), e, after) == PublishAll(ReplyStep(f, e, before))
  {
    hide Replied, Publish, Less, NoDraftStatus;
    assert Addressed(PublishAll(f), e) == Addressed(f, e);
    var k := ThreadAt(f, Addressed(f, e));
    if k.Some? {
      PublishReplied(f.objects[k.value], e, before, after);
      var th := f.objects[k.value];
      assert |Publish(th).messages| == |th.messages| by { PublishKeeps(th); }
      assert Publish(th).id == th.id by { PublishKeeps(th); }
    }
    SameFold(ReplyStep(PublishAll(f), e, after), PublishAll(ReplyStep(f, e, before)));
  }

  lemma PublishKeeps(th: Thread)
    ensures Publish(th).(status := th.status) == th
  {
  }

  lemma PublishEdit(f: Fold, e: Event, before: string, after: string)
    requires FoldOk(f) && FoldOk(PublishAll(f)) && !Less(after, e.name)
    ensures EditStep(PublishAll(f), e, after) == PublishAll(EditStep(f, e, before))
  {
    var p := PublishAll(f);
    assert Edited(p, e) == Edited(f, e);
    if Edited(f, e).Some? { assert EditIndex(p, e) == EditIndex(f, e); }
    SameFold(EditStep(p, e, after), PublishAll(EditStep(f, e, before)));
  }

  lemma PublishStatus(f: Fold, e: Event)
    requires FoldOk(f) && FoldOk(PublishAll(f)) && e.kind.StatusOf? && NoDraftStatus(e)
    ensures StatusStep(PublishAll(f), e) == PublishAll(StatusStep(f, e))
  {
    assert Addressed(PublishAll(f), e) == Addressed(f, e);
    SameFold(StatusStep(PublishAll(f), e), PublishAll(StatusStep(f, e)));
  }

  /** One step commutes with publishing, when the later hand-off covers the event. */
  lemma PublishStep(f: Fold, e: Event, before: string, after: string)
    requires FoldOk(f) && NoDraftStatus(e) && !Less(after, e.name)
    ensures FoldOk(PublishAll(f)) && Step(PublishAll(f), e, after) == PublishAll(Step(f, e, before))
  {
    hide FoldOk, PublishAll, CommentStep, ReplyStep, EditStep, StatusStep, NoDraftStatus, Less;
    PublishedOk(f);
    if e.kind.Comment? && e.actor.Human? { PublishComment(f, e, before, after); }
    else if e.kind.ReplyTo? { PublishReply(f, e, before, after); }
    else if e.kind.Edit? && e.actor.Human? { PublishEdit(f, e, before, after); }
    else if e.kind.StatusOf? { PublishStatus(f, e); }
  }

  lemma {:induction false} PublishFold(events: seq<Event>, n: nat, before: string, after: string)
    requires n <= |events|
    requires forall k :: 0 <= k < n ==> NoDraftStatus(events[k]) && !Less(after, events[k].name)
    ensures FoldUpTo(events, n, after) == PublishAll(FoldUpTo(events, n, before))
  {
    hide Step, FoldOk, Less, NoDraftStatus;
    if n > 0 {
      PublishFold(events, n - 1, before, after);
      PublishStep(FoldUpTo(events, n - 1, before), events[n - 1], before, after);
    }
  }

  lemma {:induction false} FoldPrefix(events: seq<Event>, e: Event, n: nat, h: string)
    requires n <= |events|
    ensures FoldUpTo(events + [e], n, h) == FoldUpTo(events, n, h)
  {
    hide Step, FoldOk;
    if n > 0 { FoldPrefix(events, e, n - 1, h); }
  }

  /** A hand-off that is the newest event changes the folded threads in one way: every draft becomes pending.
      Messages, their places, each thread's own event and its latest human message stay; no draft remains. */
  lemma HandoffPublishesDrafts(events: seq<Event>, h: Event)
    requires h.kind.Handoff? && forall k :: 0 <= k < |events| ==>
      NoDraftStatus(events[k]) && Less(events[k].name, h.name)
    ensures FoldEvents(events + [h]) == PublishAll(FoldEvents(events))
    ensures forall id :: id in Threads(FoldEvents(events + [h])) ==>
      Threads(FoldEvents(events + [h]))[id].status != "draft"
    ensures Drafts(FoldEvents(events + [h])) == 0
  {
    hide Less, NoDraftStatus, FoldUpTo, FoldOk, Publish;
    var all := events + [h];
    assert all[..|events|] == events && LastHandoff(all) == h.name;
    forall k | 0 <= k < |events| ensures !Less(h.name, events[k].name) { LessIsTotal(h.name, events[k].name); }
    FoldPrefix(events, h, |events|, h.name);
    HandoffIsIgnored(events, h);
    PublishFold(events, |events|, LastHandoff(events), h.name);
    NoDraftsAfter(FoldEvents(events));
  }

  lemma HandoffIsIgnored(events: seq<Event>, h: Event)
    requires h.kind.Handoff?
    ensures FoldUpTo(events + [h], |events| + 1, h.name) == FoldUpTo(events + [h], |events|, h.name)
  {
  }

  lemma NoDraftsAfter(f: Fold)
    requires FoldOk(f) && FoldOk(PublishAll(f))
    ensures forall id :: id in Threads(PublishAll(f)) ==> Threads(PublishAll(f))[id].status != "draft"
    ensures Drafts(PublishAll(f)) == 0
  {
    NoDrafts(PublishAll(f), |f.order|);
  }

  /** The condition is needed: an agent that sets the status "draft" leaves a draft behind a later hand-off. */
  lemma DraftStatusOutlivesHandoff()
    ensures var comment := Event("1", Human, Comment, "c", "", "", "", "");
      var status := Event("2", Agent, StatusOf, "s", "c", "", "", "draft");
      var handoff := Event("3", Human, Handoff, "h", "", "", "", "");
      var threads := Threads(FoldEvents([comment, status, handoff]));
      "c" in threads && threads["c"].status == "draft"
  {
    var comment := Event("1", Human, Comment, "c", "", "", "", "");
    var status := Event("2", Agent, StatusOf, "s", "c", "", "", "draft");
    var handoff := Event("3", Human, Handoff, "h", "", "", "", "");
    var events := [comment, status, handoff];
    var f1 := CommentStep(NOTHING, comment, "3");
    assert LastHandoff(events) == "3";
    assert FoldUpTo(events, 0, "3") == NOTHING;
    assert FoldUpTo(events, 1, "3") == f1;
    assert FoldUpTo(events, 2, "3") == Step(f1, status, "3");
    assert FoldUpTo(events, 3, "3") == Step(f1, status, "3");
  }

  // `reviewHandoffState`.

  /** How many of the first n threads are drafts. */
  function DraftsUpTo(f: Fold, n: nat): nat
    requires FoldOk(f) && n <= |f.order|
  {
    if n == 0 then 0
    else
      var id := f.order[n - 1];
      DraftsUpTo(f, n - 1) + if id in f.threads && f.objects[f.threads[id]].status == "draft" then 1 else 0
  }

  function Drafts(f: Fold): nat
    requires FoldOk(f)
  {
    DraftsUpTo(f, |f.order|)
  }

  datatype HandoffState = HandoffState(drafts: nat, finish: bool, enabled: bool)

  function ReviewHandoffState(f: Fold, hasTbd: bool): HandoffState
    requires FoldOk(f)
  {
    var drafts := Drafts(f);
    var allResolved := forall id :: id in f.threads ==> f.objects[f.threads[id]].status == "resolved";
    var finish := !hasTbd && drafts == 0 && allResolved;
    HandoffState(drafts, finish, drafts > 0 || finish)
  }

  lemma {:induction false} NoDrafts(f: Fold, n: nat)
    requires FoldOk(f) && n <= |f.order| && forall k :: 0 <= k < |f.objects| ==> f.objects[k].status != "draft"
    ensures DraftsUpTo(f, n) == 0
  {
    if n > 0 { NoDrafts(f, n - 1); }
  }

  /** After a hand-off the button offers a second one only to finish: nothing is undecided and all is resolved. */
  lemma HandoffThenFinish(events: seq<Event>, h: Event, hasTbd: bool)
    requires h.kind.Handoff? && forall k :: 0 <= k < |events| ==>
      NoDraftStatus(events[k]) && Less(events[k].name, h.name)
    ensures var state := ReviewHandoffState(FoldEvents(events + [h]), hasTbd);
      && state.drafts == 0 && (state.enabled <==> state.finish)
      && (state.finish <==> !hasTbd && forall id :: id in Threads(FoldEvents(events)) ==>
            Threads(FoldEvents(events))[id].status == "resolved")
  {
    HandoffPublishesDrafts(events, h);
    var f, g := FoldEvents(events), FoldEvents(events + [h]);
    forall id | id in f.threads
      ensures g.objects[g.threads[id]].status == "resolved" <==> f.objects[f.threads[id]].status == "resolved" {}
    assert forall id :: id in Threads(f) <==> id in f.threads;
  }

  // Edits keep their place.

  ghost predicate DistinctIds(events: seq<Event>) {
    forall i, k :: 0 <= i < k < |events| ==> events[i].id != events[k].id
  }

  /** The message shown at a place. */
  function MessageAt(f: Fold, s: Slot): Event
    requires SlotOk(f, s)
  {
    f.objects[s.thread].messages[s.index]
  }

  /** Event k has a place, and what stands there is event k or a later one with the same place. */
  ghost predicate ShownAt(f: Fold, events: seq<Event>, n: nat, k: nat)
    requires FoldOk(f) && n <= |events| && k < n && events[k].id in f.messageSlot
  {
    var s := f.messageSlot[events[k].id];
    SlotOk(f, s) && exists m :: Occupies(f, events, n, s, m) && k <= m
  }

  /** Event m stands in slot s. */
  ghost predicate Occupies(f: Fold, events: seq<Event>, n: nat, s: Slot, m: nat)
    requires n <= |events|
  {
    m < n && SlotOk(f, s) && MessageAt(f, s) == events[m]
    && events[m].id in f.messageSlot && f.messageSlot[events[m].id] == s
  }

  /** `th.ev` is the first message, and the latest human message is one of the messages. */
  predicate ThreadOk(th: Thread) {
    && th.messages != [] && th.ev == th.messages[0]
    && exists k :: 0 <= k < |th.messages| && th.messages[k].id == th.latestHumanId && th.messages[k].actor.Human?
  }

  ghost predicate Inv(f: Fold, events: seq<Event>, n: nat)
    requires n <= |events|
  {
    && FoldOk(f)
    && (forall k :: 0 <= k < |f.objects| ==> ThreadOk(f.objects[k]))
    && (forall m :: m in f.messageSlot ==> exists k :: 0 <= k < n && events[k].id == m)
    && (forall k :: 0 <= k < n && events[k].id in f.messageSlot ==> ShownAt(f, events, n, k))
  }

  lemma NothingInv(events: seq<Event>)
    ensures Inv(NOTHING, events, 0)
  {
  }

  /** One thread changed at one place by event n - 1, which now stands there. */
  ghost predicate Wrote(f: Fold, f': Fold, e: Event, s: Slot)
    requires FoldOk(f)
  {
    && FoldOk(f') && SlotOk(f', s) && MessageAt(f', s) == e
    && f'.messageSlot == f.messageSlot[e.id := s]
    && |f.objects| <= |f'.objects|
    && forall t: Slot :: SlotOk(f, t) && t != s ==> SlotOk(f', t) && MessageAt(f', t) == MessageAt(f, t)
  }

  /** The step either placed its event somewhere or moved no message. */
  lemma StepWrites(f: Fold, e: Event, h: string) returns (s: Option<Slot>)
    requires FoldOk(f) && forall k :: 0 <= k < |f.objects| ==> ThreadOk(f.objects[k])
    ensures s.Some? ==> Wrote(f, Step(f, e, h), e, s.value)
    ensures s.None? ==> FoldOk(Step(f, e, h)) && SameMessages(f, Step(f, e, h))
    ensures forall k :: 0 <= k < |Step(f, e, h).objects| ==> ThreadOk(Step(f, e, h).objects[k])
    ensures s.Some? && e.kind.Edit? && e.supersedes in f.messageSlot ==> s == Some(f.messageSlot[e.supersedes])
  {
    StepKeepsOk(f, e, h);
    if e.kind.Comment? && e.actor.Human? {
      CommentWrites(f, e, h);
      s := Some(Slot(|f.objects|, 0));
    } else if e.kind.ReplyTo? && ThreadAt(f, Addressed(f, e)).Some? {
      var k := ThreadAt(f, Addressed(f, e)).value;
      ReplyWrites(f, e, h, k);
      s := Some(Slot(k, |f.objects[k].messages|));
    } else if e.kind.Edit? && e.actor.Human? && Edited(f, e).Some? {
      EditWrites(f, e, h);
      s := Some(Slot(Edited(f, e).value, EditIndex(f, e)));
    } else {
      if e.kind.StatusOf? { StatusMovesNothing(f, e); }
      s := None;
    }
  }

  ghost predicate SameMessages(f: Fold, f': Fold) {
    && f'.messageSlot == f.messageSlot && |f'.objects| == |f.objects|
    && forall k :: 0 <= k < |f.objects| ==> f'.objects[k].messages == f.objects[k].messages
  }

  lemma CommentWrites(f: Fold, e: Event, h: string)
    requires FoldOk(f) && e.actor.Human? && forall k :: 0 <= k < |f.objects| ==> ThreadOk(f.objects[k])
    ensures Wrote(f, CommentStep(f, e, h), e, Slot(|f.objects|, 0))
    ensures forall k :: 0 <= k < |CommentStep(f, e, h).objects| ==> ThreadOk(CommentStep(f, e, h).objects[k])
  {
    CommentKeepsOk(f, e, h);
    var f' := CommentStep(f, e, h);
    assert f'.objects[|f.objects|].messages[0] == e;
  }

  lemma RepliedOk(th: Thread, e: Event, h: string)
    requires ThreadOk(th)
    ensures ThreadOk(Replied(th, e, h)) && Replied(th, e, h).messages == th.messages + [e]
  {
    var th' := Replied(th, e, h);
    var k :| 0 <= k < |th.messages| && th.messages[k].id == th.latestHumanId && th.messages[k].actor.Human?;
    assert th'.messages[k] == th.messages[k] && th'.messages[|th.messages|] == e;
  }

  lemma EditedOk(th: Thread, index: nat, e: Event, h: string)
    requires ThreadOk(th) && index <= |th.messages| && e.actor.Human?
    ensures ThreadOk(EditedAt(th, index, e, h)) && index < |EditedAt(th, index, e, h).messages|
    ensures EditedAt(th, index, e, h).messages[index] == e && |th.messages| <= |EditedAt(th, index, e, h).messages|
    ensures forall i :: 0 <= i < |th.messages| && i != index ==> EditedAt(th, index, e, h).messages[i] == th.messages[i]
  {
    assert EditedAt(th, index, e, h).messages[index] == e;
  }

  lemma ReplyWrites(f: Fold, e: Event, h: string, k: nat)
    requires FoldOk(f) && forall k :: 0 <= k < |f.objects| ==> ThreadOk(f.objects[k])
    requires ThreadAt(f, Addressed(f, e)) == Some(k)
    ensures Wrote(f, ReplyStep(f, e, h), e, Slot(k, |f.objects[k].messages|))
    ensures forall k :: 0 <= k < |ReplyStep(f, e, h).objects| ==> ThreadOk(ReplyStep(f, e, h).objects[k])
  {
    hide ThreadOk, Replied;
    ChangesKeepOk(f, e, h);
    RepliedOk(f.objects[k], e, h);
  }

  lemma EditWrites(f: Fold, e: Event, h: string)
    requires FoldOk(f) && e.actor.Human? && Edited(f, e).Some? && forall k :: 0 <= k < |f.objects| ==>
      ThreadOk(f.objects[k])
    ensures Wrote(f, EditStep(f, e, h), e, Slot(Edited(f, e).value, EditIndex(f, e)))
    ensures forall k :: 0 <= k < |EditStep(f, e, h).objects| ==> ThreadOk(EditStep(f, e, h).objects[k])
    ensures e.supersedes in f.messageSlot ==> Slot(Edited(f, e).value, EditIndex(f, e)) == f.messageSlot[e.supersedes]
  {
    hide ThreadOk, EditedAt;
    ChangesKeepOk(f, e, h);
    var k, index := Edited(f, e).value, EditIndex(f, e);
    if e.supersedes in f.messageSlot { assert SlotOk(f, f.messageSlot[e.supersedes]); }
    EditedOk(f.objects[k], index, e, h);
    var f' := EditStep(f, e, h);
    assert f' == f.(objects := f.objects[k := EditedAt(f.objects[k], index, e, h)],
                    messageThread := f.messageThread[e.id := f.objects[k].id],
                      messageSlot := f.messageSlot[e.id := Slot(k, index)]);
    assert SlotOk(f', Slot(k, index)) && MessageAt(f', Slot(k, index)) == e;
    forall t: Slot | SlotOk(f, t) && t != Slot(k, index) ensures SlotOk(f', t) && MessageAt(f', t) == MessageAt(f, t) {}
  }

  lemma StatusKeepsThread(th: Thread, status: string)
    requires ThreadOk(th)
    ensures ThreadOk(th.(status := status))
  {
    var k :| 0 <= k < |th.messages| && th.messages[k].id == th.latestHumanId && th.messages[k].actor.Human?;
    assert th.(status := status).messages[k] == th.messages[k];
  }

  lemma StatusMovesNothing(f: Fold, e: Event)
    requires FoldOk(f) && forall k :: 0 <= k < |f.objects| ==> ThreadOk(f.objects[k])
    ensures SameMessages(f, StatusStep(f, e))
    ensures forall k :: 0 <= k < |StatusStep(f, e).objects| ==> ThreadOk(StatusStep(f, e).objects[k])
  {
    hide ThreadOk;
    var k := ThreadAt(f, Addressed(f, e));
    if k.Some? { StatusKeepsThread(f.objects[k.value], e.status); }
  }

  /** An event not yet folded has no place. */
  lemma NextIsUnplaced(f: Fold, events: seq<Event>, n: nat)
    requires n < |events| && DistinctIds(events) && Inv(f, events, n)
    ensures events[n].id !in f.messageSlot
  {
    hide ShownAt, ThreadOk;
    forall k | 0 <= k < n ensures events[k].id != events[n].id {}
  }

  lemma WriteKeepsShown(f: Fold, f': Fold, events: seq<Event>, n: nat, s: Slot)
    requires n < |events| && DistinctIds(events) && Inv(f, events, n) && Wrote(f, f', events[n], s)
    ensures forall k :: 0 <= k < n + 1 && events[k].id in f'.messageSlot ==> ShownAt(f', events, n + 1, k)
  {
    hide Wrote, ThreadOk, ShownAt, FoldOk, DistinctIds;
    assert FoldOk(f') by { WroteOk(f, f', events[n], s); }
    NextIsUnplaced(f, events, n);
    forall k | 0 <= k < n + 1 && events[k].id in f'.messageSlot ensures ShownAt(f', events, n + 1, k) {
      if k == n { NewestShown(f, f', events, n, s); } else { StillShown(f, f', events, n, s, k); }
    }
  }

  lemma WroteOk(f: Fold, f': Fold, e: Event, s: Slot)
    requires FoldOk(f) && Wrote(f, f', e, s)
    ensures FoldOk(f')
  {
  }

  lemma NewestShown(f: Fold, f': Fold, events: seq<Event>, n: nat, s: Slot)
    requires n < |events| && FoldOk(f) && Wrote(f, f', events[n], s)
    ensures events[n].id in f'.messageSlot && ShownAt(f', events, n + 1, n)
  {
    assert Occupies(f', events, n + 1, s, n);
  }

  lemma StillShown(f: Fold, f': Fold, events: seq<Event>, n: nat, s: Slot, k: nat)
    requires k < n < |events| && DistinctIds(events) && FoldOk(f) && Wrote(f, f', events[n], s)
    requires events[k].id in f'.messageSlot && events[n].id !in f.messageSlot
    requires events[k].id in f.messageSlot ==> ShownAt(f, events, n, k)
    ensures ShownAt(f', events, n + 1, k)
  {
    hide FoldOk;
    assert events[k].id != events[n].id;
    var t := f.messageSlot[events[k].id];
    var m :| Occupies(f, events, n, t, m) && k <= m;
    if t == s {
      assert Occupies(f', events, n + 1, s, n);
    } else {
      assert Occupies(f', events, n + 1, t, m);
    }
  }

  lemma SameKeepsShown(f: Fold, f': Fold, events: seq<Event>, n: nat)
    requires n < |events| && DistinctIds(events) && Inv(f, events, n) && FoldOk(f') && SameMessages(f, f')
    ensures forall k :: 0 <= k < n + 1 && events[k].id in f'.messageSlot ==> ShownAt(f', events, n + 1, k)
  {
    hide ThreadOk, DistinctIds, FoldOk, ShownAt, SameMessages;
    NextIsUnplaced(f, events, n);
    SameSlots(f, f');
    forall k | 0 <= k < n && events[k].id in f'.messageSlot ensures ShownAt(f', events, n + 1, k) {
      UnmovedShown(f, f', events, n, k);
    }
  }

  lemma SameSlots(f: Fold, f': Fold)
    requires SameMessages(f, f')
    ensures f'.messageSlot == f.messageSlot
  {
  }

  lemma UnmovedShown(f: Fold, f': Fold, events: seq<Event>, n: nat, k: nat)
    requires k < n < |events| && FoldOk(f) && FoldOk(f') && SameMessages(f, f')
    requires events[k].id in f.messageSlot && ShownAt(f, events, n, k)
    ensures f'.messageSlot == f.messageSlot && ShownAt(f', events, n + 1, k)
  {
    hide FoldOk;
    var t := f.messageSlot[events[k].id];
    var m :| Occupies(f, events, n, t, m) && k <= m;
    assert Occupies(f', events, n + 1, t, m);
  }

  lemma {:induction false} FoldInv(events: seq<Event>, n: nat, h: string)
    requires n <= |events| && DistinctIds(events)
    ensures Inv(FoldUpTo(events, n, h), events, n)
  {
    hide Step, ThreadOk, ShownAt;
    if n == 0 {
      NothingInv(events);
    } else {
      FoldInv(events, n - 1, h);
      var f := FoldUpTo(events, n - 1, h);
      var e := events[n - 1];
      var s := StepWrites(f, e, h);
      var f' := FoldUpTo(events, n, h);
      if s.Some? { WriteKeepsShown(f, f', events, n - 1, s.value); } else { SameKeepsShown(f, f', events, n - 1); }
      forall m | m in f'.messageSlot ensures exists k :: 0 <= k < n && events[k].id == m {
        if m in f.messageSlot {
          var k :| 0 <= k < n - 1 && events[k].id == m;
          assert 0 <= k < n && events[k].id == m;
        } else {
          assert events[n - 1].id == m;
        }
      }
    }
  }

  /** With distinct event ids, in every fold: a thread's own event is its first message and its latest human message
      is one of its messages; and every message placed is shown, at its place, by itself or by a later event that
      was given the same place. */
  lemma ThreadsAreWhole(events: seq<Event>)
    requires DistinctIds(events)
    ensures forall id :: id in Threads(FoldEvents(events)) ==> ThreadOk(Threads(FoldEvents(events))[id])
    ensures var f := FoldEvents(events);
      forall k :: 0 <= k < |events| && events[k].id in f.messageSlot ==> ShownAt(f, events, |events|, k)
  {
    hide ThreadOk, ShownAt;
    FoldInv(events, |events|, LastHandoff(events));
  }

  lemma {:induction false} SlotStays(events: seq<Event>, n: nat, m: nat, h: string, id: string)
    requires n <= m <= |events| && DistinctIds(events)
    requires id in FoldUpTo(events, n, h).messageSlot
    ensures id in FoldUpTo(events, m, h).messageSlot
    ensures FoldUpTo(events, m, h).messageSlot[id] == FoldUpTo(events, n, h).messageSlot[id]
  {
    hide Step, ThreadOk, ShownAt, FoldOk;
    if n < m {
      SlotStays(events, n, m - 1, h, id);
      FoldInv(events, m - 1, h);
      FoldInv(events, n, h);
      var f := FoldUpTo(events, m - 1, h);
      var s := StepWrites(f, events[m - 1], h);
      var k :| 0 <= k < n && events[k].id == id;
      assert events[k].id != events[m - 1].id;
    }
  }

  /** With distinct event ids, a chain of edits stays where the first message of the chain stood: in the final fold an
      edit of a placed message has that message's place. */
  lemma EditsKeepTheirPlace(events: seq<Event>, k: nat)
    requires DistinctIds(events) && k < |events| && events[k].kind.Edit? && events[k].actor.Human?
    requires events[k].supersedes in FoldUpTo(events, k, LastHandoff(events)).messageSlot
    ensures var slots := FoldEvents(events).messageSlot;
      && events[k].id in slots && events[k].supersedes in slots && slots[events[k].id] == slots[events[k].supersedes]
  {
    hide ThreadOk, ShownAt, FoldOk, EditStep, Addressed, CommentStep, ReplyStep, StatusStep;
    var h := LastHandoff(events);
    var e := events[k];
    FoldInv(events, k, h);
    var f := FoldUpTo(events, k, h);
    EditWrites(f, e, h);
    assert FoldUpTo(events, k + 1, h) == EditStep(f, e, h);
    SlotStays(events, k + 1, |events|, h, e.id);
    SlotStays(events, k, |events|, h, e.supersedes);
  }

  // Convergence.

  ghost predicate SortedByName(events: seq<Event>) {
    forall i, k :: 0 <= i < k < |events| ==> Less(events[i].name, events[k].name)
  }

  ghost predicate SameElements(a: seq<Event>, b: seq<Event>) {
    forall e :: e in a <==> e in b
  }

  lemma {:induction false} LastIsLast(a: seq<Event>, b: seq<Event>)
    requires SortedByName(a) && SortedByName(b) && SameElements(a, b) && a != []
    ensures b != [] && a[|a| - 1] == b[|b| - 1]
  {
    hide Less;
    assert a[|a| - 1] in b;
    var k :| 0 <= k < |b| && b[k] == a[|a| - 1];
    assert b[|b| - 1] in a;
    var i :| 0 <= i < |a| && a[i] == b[|b| - 1];
    LessIsTotal(a[|a| - 1].name, b[|b| - 1].name);
  }

  /** A set of events has one order. */
  lemma {:induction false} SortedIsUnique(a: seq<Event>, b: seq<Event>)
    requires SortedByName(a) && SortedByName(b) && SameElements(a, b)
    ensures a == b
    decreases |a|
  {
    hide Less;
    assert b != [] ==> b[0] in a;
    if a != [] {
      LastIsLast(a, b);
      var a', b' := a[..|a| - 1], b[..|b| - 1];
      forall e ensures e in a' <==> e in b' { InitMember(a, e); InitMember(b, e); }
      SortedIsUnique(a', b');
      assert a == a' + [a[|a| - 1]] && b == b' + [b[|b| - 1]];
    }
  }

  lemma InitMember(a: seq<Event>, e: Event)
    requires SortedByName(a) && a != []
    ensures e in a[..|a| - 1] <==> e in a && e != a[|a| - 1]
  {
    hide Less;
    LessIsTotal(a[|a| - 1].name, a[|a| - 1].name);
  }
}
