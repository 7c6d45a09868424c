/** What a hand-off leaves a draft, exactly: docs/specs/.viz/runtime.js folds a status an event carries as it is, so
    an event that carries the status "draft" outlives the hand-off, and nothing else does. */
module ReviewHandoff {
  import opened Prelude
  import opened ReviewThreads
  import opened ReviewTheorems

  /** The thread object whose status an event sets. */
  function SetBy(f: Fold, e: Event): Option<nat>
    requires FoldOk(f)
  {
    if e.kind.Comment? && e.actor.Human? then Some(|f.objects|)
    else if e.kind.ReplyTo? then
      var k := ThreadAt(f, Addressed(f, e));
      if k.Some? && (e.actor.Human? || e.respondsTo == f.objects[k.value].latestHumanId) then k else None
    else if e.kind.Edit? && e.actor.Human? then Edited(f, e)
    else if e.kind.StatusOf? then ThreadAt(f, Addressed(f, e))
    else None
  }

  /** The status it gives: its own, or what the last hand-off makes of a human message. */
  function Given(e: Event, h: string): string {
    if e.kind.StatusOf? then e.status
    else if e.actor.Human? then HumanStatus(e, h)
    else if e.status != "" then e.status
    else "acknowledged"
  }

  lemma StepSets(f: Fold, e: Event, h: string, k: nat)
    requires FoldOk(f) && k < |Step(f, e, h).objects|
    ensures if SetBy(f, e) == Some(k) then Step(f, e, h).objects[k].status == Given(e, h)
      else k < |f.objects| && Step(f, e, h).objects[k].status == f.objects[k].status
  {
    hide HumanStatus, Addressed;
  }

  lemma SetExists(f: Fold, e: Event, h: string)
    requires FoldOk(f)
    ensures |f.objects| <= |Step(f, e, h).objects|
    ensures SetBy(f, e).Some? ==> SetBy(f, e).value < |Step(f, e, h).objects|
  {
    hide HumanStatus, Addressed;
    if SetBy(f, e).Some? && e.kind.Edit? && e.supersedes in f.messageSlot {
      assert SlotOk(f, f.messageSlot[e.supersedes]);
    }
  }

  /** Event i is the last of the first n to set the status of object k. */
  ghost predicate LastSets(events: seq<Event>, n: nat, h: string, k: nat, i: nat)
    requires n <= |events|
  {
    && i < n && SetBy(FoldUpTo(events, i, h), events[i]) == Some(k)
    && forall j :: i < j < n ==> SetBy(FoldUpTo(events, j, h), events[j]) != Some(k)
  }

  /** A thread's status is what the last event that set it gave. */
  lemma {:induction false} StatusIsLastGiven(events: seq<Event>, n: nat, h: string, k: nat, i: nat)
    requires n <= |events| && LastSets(events, n, h, k, i)
    ensures k < |FoldUpTo(events, n, h).objects| && FoldUpTo(events, n, h).objects[k].status == Given(events[i], h)
    decreases n
  {
    hide Step, SetBy, Given, FoldOk;
    var f := FoldUpTo(events, n - 1, h);
    SetExists(f, events[n - 1], h);
    if i < n - 1 { StatusIsLastGiven(events, n - 1, h, k, i); }
    StepSets(f, events[n - 1], h, k);
  }

  /** Every thread's status was set by some event. */
  lemma {:induction false} SomeoneSets(events: seq<Event>, n: nat, h: string, k: nat) returns (i: nat)
    requires n <= |events| && k < |FoldUpTo(events, n, h).objects|
    ensures LastSets(events, n, h, k, i)
  {
    hide Step, SetBy, Given, FoldOk;
    var f := FoldUpTo(events, n - 1, h);
    StepSets(f, events[n - 1], h, k);
    if SetBy(f, events[n - 1]) == Some(k) { i := n - 1; } else { i := SomeoneSets(events, n - 1, h, k); }
  }

  ghost predicate NewestHandoff(events: seq<Event>, h: Event) {
    h.kind.Handoff? && forall k :: 0 <= k < |events| ==> Less(events[k].name, h.name)
  }

  /** The last event that set the status of object k carried the status "draft". */
  ghost predicate DraftWasCarried(events: seq<Event>, h: string, k: nat) {
    exists i: nat :: LastSets(events, |events|, h, k, i) && !NoDraftStatus(events[i])
  }

  lemma GivenDraft(e: Event, h: string)
    requires !Less(h, e.name) && (e.actor.Human? || e.kind.ReplyTo? || e.kind.StatusOf?)
    ensures Given(e, h) == "draft" <==> !NoDraftStatus(e)
  {
  }

  lemma SettersSet(f: Fold, e: Event)
    requires FoldOk(f) && SetBy(f, e).Some?
    ensures e.actor.Human? || e.kind.ReplyTo? || e.kind.StatusOf?
  {
  }

  /** After a hand-off that is the newest event a thread is a draft if and only if the last event that set its status
      carried the status "draft": a status event, or an agent's answer to the latest human message. */
  lemma DraftAfterHandoffExactly(events: seq<Event>, h: Event, id: string)
    requires NewestHandoff(events, h) && id in Threads(FoldEvents(events + [h]))
    ensures Threads(FoldEvents(events + [h]))[id].status == "draft" <==>
      DraftWasCarried(events + [h], h.name, FoldEvents(events + [h]).threads[id])
  {
    hide SetBy, Given, FoldUpTo, NoDraftStatus, Less;
    var all := events + [h];
    assert LastHandoff(all) == h.name;
    var k := FoldEvents(all).threads[id];
    NothingIsNewer(events, h);
    DraftExactly(all, h.name, k);
  }

  lemma NothingIsNewer(events: seq<Event>, h: Event)
    requires NewestHandoff(events, h)
    ensures forall j :: 0 <= j < |events + [h]| ==> !Less(h.name, (events + [h])[j].name)
  {
    hide Less;
    var all := events + [h];
    forall j | 0 <= j < |all| ensures !Less(h.name, all[j].name) { LessIsTotal(h.name, all[j].name); }
  }

  lemma DraftExactly(all: seq<Event>, h: string, k: nat)
    requires k < |FoldUpTo(all, |all|, h).objects| && forall j :: 0 <= j < |all| ==> !Less(h, all[j].name)
    ensures FoldUpTo(all, |all|, h).objects[k].status == "draft" <==> DraftWasCarried(all, h, k)
  {
    hide SetBy, Given, FoldUpTo, NoDraftStatus, Less;
    var s := SomeoneSets(all, |all|, h, k);
    forall i: nat | LastSets(all, |all|, h, k, i)
      ensures FoldUpTo(all, |all|, h).objects[k].status == "draft" <==> !NoDraftStatus(all[i])
    {
      StatusIsLastGiven(all, |all|, h, k, i);
      SettersSet(FoldUpTo(all, i, h), all[i]);
      GivenDraft(all[i], h);
    }
  }

  // What else a hand-off changes.

  function Faceless(th: Thread): Thread { th.(status := "") }

  /** Two folds that differ in statuses only. */
  ghost predicate Alike(f: Fold, g: Fold) {
    && f.threads == g.threads && f.order == g.order && f.messageThread == g.messageThread
    && f.messageSlot == g.messageSlot
    && |f.objects| == |g.objects|
    && forall k :: 0 <= k < |f.objects| ==> Faceless(f.objects[k]) == Faceless(g.objects[k])
  }

  lemma AlikeSet(f: Fold, g: Fold, e: Event)
    requires FoldOk(f) && FoldOk(g) && Alike(f, g)
    ensures SetBy(f, e) == SetBy(g, e) && Addressed(f, e) == Addressed(g, e) && Edited(f, e) == Edited(g, e)
  {
    var k := ThreadAt(f, Addressed(f, e));
    if k.Some? { assert Faceless(f.objects[k.value]) == Faceless(g.objects[k.value]); }
  }

  lemma AlikeReplied(x: Thread, y: Thread, e: Event, a: string, b: string)
    requires Faceless(x) == Faceless(y)
    ensures Faceless(Replied(x, e, a)) == Faceless(Replied(y, e, b)) && x.id == y.id && x.messages == y.messages
  {
    hide HumanStatus;
    assert x.ev == Faceless(x).ev && y.ev == Faceless(y).ev && x.latestHumanId == Faceless(x).latestHumanId;
    assert x.id == Faceless(x).id && x.messages == Faceless(x).messages && y.messages == Faceless(y).messages;
    assert y.id == Faceless(y).id && y.latestHumanId == Faceless(y).latestHumanId;
  }

  lemma AlikeReply(f: Fold, g: Fold, e: Event, a: string, b: string)
    requires FoldOk(f) && FoldOk(g) && Alike(f, g)
    ensures Alike(ReplyStep(f, e, a), ReplyStep(g, e, b))
  {
    hide Replied, Faceless, Addressed;
    AlikeSet(f, g, e);
    var k := ThreadAt(f, Addressed(f, e));
    if k.Some? { AlikeReplied(f.objects[k.value], g.objects[k.value], e, a, b); }
  }

  lemma AlikeEdited(x: Thread, y: Thread, index: nat, e: Event, a: string, b: string)
    requires Faceless(x) == Faceless(y) && index <= |x.messages|
    ensures x.id == y.id && x.messages == y.messages
    ensures Faceless(EditedAt(x, index, e, a)) == Faceless(EditedAt(y, index, e, b))
  {
    hide HumanStatus;
    AlikeReplied(x, y, e, a, b);
    assert x.ev == Faceless(x).ev && y.ev == Faceless(y).ev;
  }

  lemma AlikeEdit(f: Fold, g: Fold, e: Event, a: string, b: string)
    requires FoldOk(f) && FoldOk(g) && Alike(f, g)
    ensures Alike(EditStep(f, e, a), EditStep(g, e, b))
  {
    hide EditedAt, Faceless, Edited;
    AlikeSet(f, g, e);
    var k := Edited(f, e);
    if k.Some? {
      EditedWithin(f, e);
      AlikeReplied(f.objects[k.value], g.objects[k.value], e, a, b);
      AlikeEdited(f.objects[k.value], g.objects[k.value], EditIndex(f, e), e, a, b);
    }
  }

  lemma EditedWithin(f: Fold, e: Event)
    requires FoldOk(f) && Edited(f, e).Some?
    ensures Edited(f, e).value < |f.objects| && EditIndex(f, e) <= |f.objects[Edited(f, e).value].messages|
  {
    if e.supersedes in f.messageSlot { assert SlotOk(f, f.messageSlot[e.supersedes]); }
  }

  lemma AlikeComment(f: Fold, g: Fold, e: Event, a: string, b: string)
    requires Alike(f, g)
    ensures Alike(CommentStep(f, e, a), CommentStep(g, e, b))
  {
    hide HumanStatus;
  }

  lemma AlikeStatus(f: Fold, g: Fold, e: Event)
    requires FoldOk(f) && FoldOk(g) && Alike(f, g)
    ensures Alike(StatusStep(f, e), StatusStep(g, e))
  {
    hide Addressed;
    AlikeSet(f, g, e);
  }

  lemma AlikeStep(f: Fold, g: Fold, e: Event, a: string, b: string)
    requires FoldOk(f) && FoldOk(g) && Alike(f, g)
    ensures Alike(Step(f, e, a), Step(g, e, b))
  {
    hide ReplyStep, EditStep, CommentStep, StatusStep, Alike, FoldOk;
    if e.kind.Comment? && e.actor.Human? { AlikeComment(f, g, e, a, b); }
    else if e.kind.ReplyTo? { AlikeReply(f, g, e, a, b); }
    else if e.kind.StatusOf? { AlikeStatus(f, g, e); }
    else if e.kind.Edit? && e.actor.Human? { AlikeEdit(f, g, e, a, b); }
  }

  lemma {:induction false} AlikeFold(events: seq<Event>, n: nat, a: string, b: string)
    requires n <= |events|
    ensures Alike(FoldUpTo(events, n, a), FoldUpTo(events, n, b))
  {
    hide Step, FoldOk;
    if n > 0 {
      AlikeFold(events, n - 1, a, b);
      AlikeStep(FoldUpTo(events, n - 1, a), FoldUpTo(events, n - 1, b), events[n - 1], a, b);
    }
  }

  lemma AlikeLastSets(events: seq<Event>, n: nat, a: string, b: string, k: nat, i: nat)
    requires n <= |events| && LastSets(events, n, a, k, i)
    ensures LastSets(events, n, b, k, i)
  {
    hide SetBy, Alike, FoldOk;
    forall j | i <= j < n ensures SetBy(FoldUpTo(events, j, a), events[j]) == SetBy(FoldUpTo(events, j, b), events[j]) {
      AlikeFold(events, j, a, b);
      AlikeSet(FoldUpTo(events, j, a), FoldUpTo(events, j, b), events[j]);
    }
  }

  /** A newest hand-off changes the folded threads in one way, with no proviso: a thread whose draft status was carried
      by an event stays the draft it was, every other draft becomes pending, and nothing else differs. */
  lemma HandoffExactly(events: seq<Event>, h: Event)
    requires NewestHandoff(events, h)
    ensures var f, g := FoldEvents(events), FoldEvents(events + [h]);
      && g.threads == f.threads && g.order == f.order && g.messageThread == f.messageThread
      && g.messageSlot == f.messageSlot
      && |g.objects| == |f.objects|
      && forall k :: 0 <= k < |f.objects| ==>
        g.objects[k] == if DraftWasCarried(events + [h], h.name, k) then f.objects[k] else Publish(f.objects[k])
  {
    hide FoldUpTo, Publish, DraftWasCarried;
    var f, g := FoldEvents(events), FoldEvents(events + [h]);
    HandoffAlike(events, h);
    forall k | 0 <= k < |f.objects|
      ensures g.objects[k] == if DraftWasCarried(events + [h], h.name, k) then f.objects[k] else Publish(f.objects[k])
    {
      HandoffOfThread(events, h, k);
    }
  }

  lemma HandoffAlike(events: seq<Event>, h: Event)
    requires NewestHandoff(events, h)
    ensures Alike(FoldEvents(events), FoldEvents(events + [h]))
    ensures FoldEvents(events + [h]) == FoldUpTo(events, |events|, h.name)
  {
    hide Alike, Less;
    assert LastHandoff(events + [h]) == h.name;
    FoldPrefix(events, h, |events|, h.name);
    HandoffIsIgnored(events, h);
    AlikeFold(events, |events|, LastHandoff(events), h.name);
  }

  lemma HandoffOfThread(events: seq<Event>, h: Event, k: nat)
    requires NewestHandoff(events, h) && Alike(FoldEvents(events), FoldEvents(events + [h]))
    requires k < |FoldEvents(events).objects|
    requires FoldEvents(events + [h]) == FoldUpTo(events, |events|, h.name)
    ensures var th, th' := FoldEvents(events).objects[k], FoldEvents(events + [h]).objects[k];
      th' == if DraftWasCarried(events + [h], h.name, k) then th else Publish(th)
  {
    hide SetBy, FoldUpTo, Less, Given, NoDraftStatus;
    var before, all, n := LastHandoff(events), events + [h], |events|;
    assert LastHandoff(all) == h.name && all[..n] == events;
    NothingIsNewer(events, h);
    var i := SomeoneSets(events, n, before, k);
    StatusIsLastGiven(events, n, before, k, i);
    AlikeLastSets(events, n, before, h.name, k, i);
    StatusIsLastGiven(events, n, h.name, k, i);
    SettersSet(FoldUpTo(events, i, before), events[i]);
    assert all[i] == events[i];
    GivenThen(events[i], before, h.name);
    DraftExactly(all, h.name, k);
    SameFace(FoldEvents(events).objects[k], FoldEvents(all).objects[k]);
  }

  lemma SameFace(x: Thread, y: Thread)
    requires Faceless(x) == Faceless(y)
    ensures y == x.(status := y.status)
  {
    AlikeReplied(x, y, x.ev, "", "");
    assert x.ev == Faceless(x).ev && y.ev == Faceless(y).ev && x.latestHumanId == Faceless(x).latestHumanId;
    assert y.latestHumanId == Faceless(y).latestHumanId;
  }

  /** A hand-off changes what a human message gives from draft to pending, and nothing an event carries. */
  lemma GivenThen(e: Event, a: string, h: string)
    requires !Less(h, e.name) && (e.actor.Human? || e.kind.ReplyTo? || e.kind.StatusOf?)
    ensures !NoDraftStatus(e) ==> Given(e, a) == Given(e, h) == "draft"
    ensures NoDraftStatus(e) ==> Given(e, h) == if Given(e, a) == "draft" then "pending" else Given(e, a)
  {
  }
}
