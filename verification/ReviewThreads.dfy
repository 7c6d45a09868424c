/** The fold of review events into threads: `foldThreads`, `reviewHandoffState` and `ingest` of
    docs/specs/.viz/runtime.js. Threads are objects there, reached both by thread id and by message slot, so the
    fold keeps a heap of thread values and the maps hold references into it. */
module ReviewThreads {
  import opened Prelude

  datatype Actor = Human | Agent
  datatype Kind = Comment | ReplyTo | Edit | StatusOf | Handoff | OtherKind

  /** An event file: its name orders it. An absent field is the empty string; both are falsy. */
  datatype Event = Event(
    name: string, actor: Actor, kind: Kind, id: string, threadId: string, respondsTo: string, supersedes: string,
      status: string)

  datatype Thread = Thread(id: string, ev: Event, messages: seq<Event>, status: string, latestHumanId: string)

  /** Where a message stands: its thread object and its place there. */
  datatype Slot = Slot(thread: nat, index: nat)

  /** The local variables of `foldThreads`. `order` is the insertion order of the `threads` map. */
  datatype Fold = Fold(
    objects: seq<Thread>, threads: map<string, nat>, order: seq<string>,
    messageThread: map<string, string>, messageSlot: map<string, Slot>)

  const NOTHING := Fold([], map[], [], map[], map[])

  // The order of names.

  /** `a < b` on strings. */
  predicate Less(a: string, b: string) {
    b != "" && (a == "" || a[0] < b[0] || (a[0] == b[0] && Less(a[1..], b[1..])))
  }

  lemma {:induction false} LessIsTotal(a: string, b: string)
    ensures Less(a, b) || a == b || Less(b, a)
    ensures !(Less(a, b) && Less(b, a)) && !Less(a, a)
  {
    if a != "" && b != "" && a[0] == b[0] {
      LessIsTotal(a[1..], b[1..]);
      assert a == [a[0]] + a[1..] && b == [b[0]] + b[1..];
    }
    if a != "" { LessIsIrreflexive(a); }
  }

  lemma {:induction false} LessIsIrreflexive(a: string)
    ensures !Less(a, a)
  {
    if a != "" { LessIsIrreflexive(a[1..]); }
  }

  lemma {:induction false} LessIsTransitive(a: string, b: string, c: string)
    requires Less(a, b) && Less(b, c)
    ensures Less(a, c)
  {
    if a != "" && a[0] == b[0] == c[0] { LessIsTransitive(a[1..], b[1..], c[1..]); }
  }

  // The fold.

  /** The name of the last hand-off. */
  function LastHandoff(events: seq<Event>): string {
    if events == [] then ""
    else
      var last := events[|events| - 1];
      if last.kind.Handoff? then last.name else LastHandoff(events[..|events| - 1])
  }

  function HumanStatus(e: Event, lastHandoff: string): string {
    if Less(lastHandoff, e.name) then "draft" else "pending"
  }

  /** runtime.js:616 and :645: the thread a reply or a status speaks to ("" when none). */
  function Addressed(f: Fold, e: Event): string {
    if e.threadId != "" then e.threadId
    else if e.respondsTo in f.messageThread && f.messageThread[e.respondsTo] != "" then f.messageThread[e.respondsTo]
    else if e.respondsTo in f.threads then e.respondsTo
    else ""
  }

  function ThreadAt(f: Fold, threadId: string): Option<nat> {
    if threadId != "" && threadId in f.threads then Some(f.threads[threadId]) else None
  }

  /** runtime.js:631-633: the thread an edit changes. */
  function Edited(f: Fold, e: Event): Option<nat> {
    if e.supersedes in f.messageSlot then Some(f.messageSlot[e.supersedes].thread)
    else ThreadAt(f, if e.threadId != "" then e.threadId
                     else if e.supersedes in f.messageThread then f.messageThread[e.supersedes] else "")
  }

  /** References and slots point at something. */
  predicate FoldOk(f: Fold) {
    && (forall id :: id in f.threads ==> f.threads[id] < |f.objects|)
    && (forall id :: id in f.messageSlot ==> SlotOk(f, f.messageSlot[id]))
    && (forall k :: 0 <= k < |f.objects| ==> f.objects[k].messages != [])
  }

  predicate SlotOk(f: Fold, s: Slot) {
    s.thread < |f.objects| && s.index < |f.objects[s.thread].messages|
  }

  function CommentStep(f: Fold, e: Event, h: string): Fold {
    var k := |f.objects|;
    Fold(f.objects + [Thread(e.id, e, [e], HumanStatus(e, h), e.id)], f.threads[e.id := k],
         if e.id in f.threads then f.order else f.order + [e.id],
         f.messageThread[e.id := e.id], f.messageSlot[e.id := Slot(k, 0)])
  }

  function Replied(th: Thread, e: Event, h: string): Thread {
    var pushed := th.(messages := th.messages + [e]);
    if e.actor.Human? then pushed.(latestHumanId := e.id, status := HumanStatus(e, h))
    else if e.respondsTo == th.latestHumanId then pushed.(status := if e.status != "" then e.status else "acknowledged")
    else pushed
  }

  function ReplyStep(f: Fold, e: Event, h: string): Fold
    requires FoldOk(f)
  {
    match ThreadAt(f, Addressed(f, e))
    case None => f
    case Some(k) =>
      var th := f.objects[k];
      f.(objects := f.objects[k := Replied(th, e, h)], messageThread := f.messageThread[e.id := th.id],
         messageSlot := f.messageSlot[e.id := Slot(k, |th.messages|)])
  }

  function EditedAt(th: Thread, index: nat, e: Event, h: string): Thread
    requires index <= |th.messages|
  {
    Thread(th.id, if index == 0 then e else th.ev,
           if index < |th.messages| then th.messages[index := e] else th.messages + [e],
           HumanStatus(e, h), e.id)
  }

  /** The place an edit writes to. */
  function EditIndex(f: Fold, e: Event): nat
    requires FoldOk(f) && Edited(f, e).Some?
  {
    if e.supersedes in f.messageSlot then f.messageSlot[e.supersedes].index
      else |f.objects[Edited(f, e).value].messages|
  }

  function EditStep(f: Fold, e: Event, h: string): Fold
    requires FoldOk(f)
  {
    match Edited(f, e)
    case None => f
    case Some(k) =>
      var th := f.objects[k];
      var index := EditIndex(f, e);
      f.(objects := f.objects[k := EditedAt(th, index, e, h)], messageThread := f.messageThread[e.id := th.id],
         messageSlot := f.messageSlot[e.id := Slot(k, index)])
  }

  function StatusStep(f: Fold, e: Event): Fold
    requires FoldOk(f)
  {
    match ThreadAt(f, Addressed(f, e))
    case None => f
    case Some(k) => f.(objects := f.objects[k := f.objects[k].(status := e.status)])
  }

  function Step(f: Fold, e: Event, h: string): Fold
    requires FoldOk(f)
  {
    if e.kind.Comment? && e.actor.Human? then CommentStep(f, e, h)
    else if e.kind.ReplyTo? then ReplyStep(f, e, h)
    else if e.kind.Edit? && e.actor.Human? then EditStep(f, e, h)
    else if e.kind.StatusOf? then StatusStep(f, e)
    else f
  }

  lemma CommentKeepsOk(f: Fold, e: Event, h: string)
    requires FoldOk(f)
    ensures FoldOk(CommentStep(f, e, h))
  {
    var f' := CommentStep(f, e, h);
    forall id | id in f'.messageSlot ensures SlotOk(f', f'.messageSlot[id]) {
      if id != e.id { assert SlotOk(f, f.messageSlot[id]); }
    }
  }

  /** Changing one thread without dropping messages, and pointing one id into it, keeps the fold well formed. */
  lemma ChangeKeepsOk(f: Fold, f': Fold, k: nat, th: Thread, id: string, index: nat)
    requires FoldOk(f) && k < |f.objects| && |th.messages| >= |f.objects[k].messages| && index < |th.messages|
    requires f'.objects == f.objects[k := th] && f'.threads == f.threads
    requires f'.messageSlot == f.messageSlot[id := Slot(k, index)] || f'.messageSlot == f.messageSlot
    ensures FoldOk(f')
  {
    forall m | m in f'.messageSlot ensures SlotOk(f', f'.messageSlot[m]) {
      if m in f.messageSlot { assert SlotOk(f, f.messageSlot[m]); }
    }
  }

  lemma StepKeepsOk(f: Fold, e: Event, h: string)
    requires FoldOk(f)
    ensures FoldOk(Step(f, e, h))
  {
    hide FoldOk, CommentStep, HumanStatus;
    if e.kind.Comment? && e.actor.Human? {
      CommentKeepsOk(f, e, h);
    } else {
      ChangesKeepOk(f, e, h);
    }
  }

  lemma ChangesKeepOk(f: Fold, e: Event, h: string)
    requires FoldOk(f)
    ensures FoldOk(ReplyStep(f, e, h)) && FoldOk(EditStep(f, e, h)) && FoldOk(StatusStep(f, e))
  {
    var replied := ThreadAt(f, Addressed(f, e));
    if replied.Some? {
      var k := replied.value;
      ChangeKeepsOk(f, ReplyStep(f, e, h), k, Replied(f.objects[k], e, h), e.id, |f.objects[k].messages|);
      ChangeKeepsOk(f, StatusStep(f, e), k, f.objects[k].(status := e.status), e.id, 0);
    }
    var edited := Edited(f, e);
    if edited.Some? {
      var k := edited.value;
      var index := EditIndex(f, e);
      ChangeKeepsOk(f, EditStep(f, e, h), k, EditedAt(f.objects[k], index, e, h), e.id, index);
    }
  }

  /** The fold of the first n events, given the last hand-off. */
  function FoldUpTo(events: seq<Event>, n: nat, h: string): (f: Fold)
    requires n <= |events|
    ensures FoldOk(f)
  {
    if n == 0 then NOTHING
    else
      var f := FoldUpTo(events, n - 1, h);
      StepKeepsOk(f, events[n - 1], h);
      Step(f, events[n - 1], h)
  }

  /** `foldThreads`. */
  function FoldEvents(events: seq<Event>): Fold {
    FoldUpTo(events, |events|, LastHandoff(events))
  }

  /** What `foldThreads` returns: the threads by id. */
  function Threads(f: Fold): map<string, Thread>
    requires FoldOk(f)
  {
    map id | id in f.threads :: f.objects[f.threads[id]]
  }

  // The loop over thread objects.

  class ThreadObject {
    const id: string
    var ev: Event
    var messages: seq<Event>
    var status: string
    var latestHumanId: string

    constructor (e: Event, initial: string)
      ensures Value() == Thread(e.id, e, [e], initial, e.id)
    {
      id, ev, messages, status, latestHumanId := e.id, e, [e], initial, e.id;
    }

    ghost function Value(): Thread
      reads this
    {
      Thread(id, ev, messages, status, latestHumanId)
    }

    /** runtime.js:619 and 622-627. */
    method Append(e: Event, lastHandoff: string) returns (index: nat)
      modifies this
      ensures index == |old(messages)| && Value() == Replied(old(Value()), e, lastHandoff)
    {
      index := |messages|;
      messages := messages + [e];
      if e.actor.Human? {
        latestHumanId := e.id;
        status := HumanStatus(e, lastHandoff);
      } else if e.respondsTo == latestHumanId {
        status := if e.status != "" then e.status else "acknowledged";
      }
    }

    /** runtime.js:636-641. */
    method Replace(index: nat, e: Event, lastHandoff: string)
      requires index <= |messages|
      modifies this
      ensures Value() == EditedAt(old(Value()), index, e, lastHandoff)
    {
      messages := if index < |messages| then messages[index := e] else messages + [e];
      if index == 0 { ev := e; }
      latestHumanId := e.id;
      status := HumanStatus(e, lastHandoff);
    }
  }

  /** The maps of `foldThreads` and the thread objects they reach. `model` is the fold they stand for, `objects` its
      heap. */
  class Folder {
    var threads: map<string, ThreadObject>
    var order: seq<string>
    var messageThread: map<string, string>
    var messageSlot: map<string, (ThreadObject, nat)>
    const lastHandoff: string
    ghost var model: Fold
    ghost var objects: seq<ThreadObject>

    ghost predicate Valid()
      reads this, objects
    {
      && FoldOk(model) && Heap(objects, model.objects)
      && Refers(threads, model.threads, objects) && Places(messageSlot, model.messageSlot, objects)
      && messageThread == model.messageThread && order == model.order
    }

    constructor (h: string)
      ensures Valid() && model == NOTHING && objects == [] && lastHandoff == h
    {
      threads, order, messageThread, messageSlot := map[], [], map[], map[];
      lastHandoff, model, objects := h, NOTHING, [];
    }

    /** runtime.js:608-613. */
    method Comment(e: Event)
      requires Valid()
      modifies this
      ensures Valid() && model == CommentStep(old(model), e, lastHandoff)
      ensures |objects| == |old(objects)| + 1 && objects[..|old(objects)|] == old(objects)
      ensures fresh(objects[|old(objects)|])
    {
      hide FoldOk, Refers, Places, HumanStatus, Heap, CommentStep;
      CommentFields(model, e, lastHandoff);
      CommentKeepsOk(model, e, lastHandoff);
      var th := new ThreadObject(e, HumanStatus(e, lastHandoff));
      HeapGrows(objects, model.objects, th);
      RefersGrow(threads, model.threads, objects, e.id, th);
      PlacesGrow(messageSlot, model.messageSlot, objects, e.id, th);
      order := if e.id in threads then order else order + [e.id];
      threads, messageThread, messageSlot := threads[e.id := th], messageThread[e.id := e.id],
        messageSlot[e.id := (th, 0)];
      objects, model := objects + [th], CommentStep(model, e, lastHandoff);
    }

    /** The thread a reply or a status speaks to. */
    method FindAddressed(e: Event) returns (th: ThreadObject?)
      requires Valid()
      ensures th == null <==> ThreadAt(model, Addressed(model, e)).None?
      ensures th != null ==>
        ThreadAt(model, Addressed(model, e)).value < |objects| && th == objects[ThreadAt(model,
          Addressed(model, e)).value]
    {
      hide FoldOk, Heap;
      var threadId :=
        if e.threadId != "" then e.threadId
        else if e.respondsTo in messageThread && messageThread[e.respondsTo] != "" then messageThread[e.respondsTo]
        else if e.respondsTo in threads then e.respondsTo
        else "";
      th := if threadId != "" && threadId in threads then threads[threadId] else null;
    }

    /** runtime.js:615-629. */
    method Reply(e: Event)
      requires Valid()
      modifies this, objects
      ensures Valid() && model == ReplyStep(old(model), e, lastHandoff) && objects == old(objects)
    {
      hide FoldOk, Refers, Places, Addressed, Replied;
      ChangesKeepOk(model, e, lastHandoff);
      var th := FindAddressed(e);
      if th == null { return; }
      ghost var k := ThreadAt(model, Addressed(model, e)).value;
      var index := th.Append(e, lastHandoff);
      PlacesUpdate(messageSlot, model.messageSlot, objects, e.id, k, index);
      messageThread, messageSlot := messageThread[e.id := th.id], messageSlot[e.id := (th, index)];
      model := ReplyStep(model, e, lastHandoff);
    }

    /** runtime.js:630-643. */
    method Edit(e: Event)
      requires Valid()
      modifies this, objects
      ensures Valid() && model == EditStep(old(model), e, lastHandoff) && objects == old(objects)
    {
      hide EditedAt, Refers, Places, FoldOk;
      ChangesKeepOk(model, e, lastHandoff);
      var found := FindEdited(e);
      match found {
        case None =>
        case Some((th, index)) =>
          ghost var k := Edited(model, e).value;
          th.Replace(index, e, lastHandoff);
          PlacesUpdate(messageSlot, model.messageSlot, objects, e.id, k, index);
          messageThread := messageThread[e.id := th.id];
          messageSlot := messageSlot[e.id := (th, index)];
          model := EditStep(model, e, lastHandoff);
      }
    }

    /** runtime.js:631-635: the thread and place an edit changes. */
    method FindEdited(e: Event) returns (found: Option<(ThreadObject, nat)>)
      requires Valid()
      ensures found.None? <==> Edited(model, e).None?
      ensures found.Some? ==>
        && Edited(model, e).value < |objects| && found.value.0 == objects[Edited(model, e).value]
        && found.value.1 <= |found.value.0.messages| && found.value.1 == EditIndex(model, e)
    {
      assert e.supersedes in model.messageSlot ==> SlotOk(model, model.messageSlot[e.supersedes]);
      if e.supersedes in messageSlot { return Some(messageSlot[e.supersedes]); }
      var threadId :=
        if e.threadId != "" then e.threadId
        else if e.supersedes in messageThread then messageThread[e.supersedes] else "";
      if threadId == "" || threadId !in threads { return None; }
      found := Some((threads[threadId], |threads[threadId].messages|));
    }

    /** runtime.js:644-648. */
    method Status(e: Event)
      requires Valid()
      modifies this, objects
      ensures Valid() && model == StatusStep(old(model), e) && objects == old(objects)
    {
      hide FoldOk, Refers, Places, Addressed, Replied;
      ChangesKeepOk(model, e, lastHandoff);
      var th := FindAddressed(e);
      if th == null { return; }
      th.status := e.status;
      model := StatusStep(model, e);
    }
  }

  /** The objects are distinct and hold these values. */
  ghost predicate Heap(objects: seq<ThreadObject>, values: seq<Thread>)
    reads objects
  {
    && |objects| == |values| && (forall k :: 0 <= k < |objects| ==> objects[k].Value() == values[k])
    && (forall i, k :: 0 <= i < k < |objects| ==> objects[i] != objects[k])
  }

  ghost predicate Refers(threads: map<string, ThreadObject>, refs: map<string, nat>, objects: seq<ThreadObject>) {
    threads.Keys == refs.Keys && forall t :: t in threads ==> refs[t] < |objects| && threads[t] == objects[refs[t]]
  }

  ghost predicate Places(slots: map<string, (ThreadObject, nat)>, refs: map<string, Slot>, objects: seq<ThreadObject>) {
    slots.Keys == refs.Keys &&
    forall m :: m in slots ==> refs[m].thread < |objects| && slots[m] == (objects[refs[m].thread], refs[m].index)
  }

  lemma CommentFields(f: Fold, e: Event, h: string)
    ensures CommentStep(f, e, h).objects == f.objects + [Thread(e.id, e, [e], HumanStatus(e, h), e.id)]
    ensures CommentStep(f, e, h).threads == f.threads[e.id := |f.objects|]
    ensures CommentStep(f, e, h).order == if e.id in f.threads then f.order else f.order + [e.id]
    ensures CommentStep(f, e, h).messageThread == f.messageThread[e.id := e.id]
    ensures CommentStep(f, e, h).messageSlot == f.messageSlot[e.id := Slot(|f.objects|, 0)]
  {
  }

  lemma HeapGrows(objects: seq<ThreadObject>, values: seq<Thread>, th: ThreadObject)
    requires Heap(objects, values) && th !in objects
    ensures Heap(objects + [th], values + [th.Value()]) && |objects| == |values|
  {
  }

  lemma RefersGrow(threads: map<string, ThreadObject>, refs: map<string, nat>, objects: seq<ThreadObject>,
      id: string, th: ThreadObject)
    requires Refers(threads, refs, objects)
    ensures Refers(threads[id := th], refs[id := |objects|], objects + [th])
    ensures id in threads <==> id in refs
  {
  }

  lemma PlacesGrow(slots: map<string, (ThreadObject, nat)>, refs: map<string, Slot>, objects: seq<ThreadObject>,
      id: string, th: ThreadObject)
    requires Places(slots, refs, objects)
    ensures Places(slots[id := (th, 0)], refs[id := Slot(|objects|, 0)], objects + [th])
  {
  }

  lemma PlacesUpdate(slots: map<string, (ThreadObject, nat)>, refs: map<string, Slot>, objects: seq<ThreadObject>,
      id: string, k: nat, index: nat)
    requires Places(slots, refs, objects) && k < |objects|
    ensures Places(slots[id := (objects[k], index)], refs[id := Slot(k, index)], objects)
  {
  }

  /** `foldThreads`, over thread objects changed in place. */
  method FoldThreads(events: seq<Event>) returns (threads: map<string, ThreadObject>, order: seq<string>)
    ensures order == FoldEvents(events).order && threads.Keys == FoldEvents(events).threads.Keys
    ensures forall id :: id in threads ==> fresh(threads[id]) && threads[id].Value() == Threads(FoldEvents(events))[id]
  {
    hide FoldOk, CommentStep, ReplyStep, EditStep, StatusStep;
    var lastHandoff := "";
    for i := 0 to |events|
      invariant lastHandoff == LastHandoff(events[..i])
    {
      assert events[..i + 1][..i] == events[..i];
      if events[i].kind.Handoff? { lastHandoff := events[i].name; }
    }
    assert events[..|events|] == events;
    var folder := new Folder(lastHandoff);
    for i := 0 to |events|
      invariant folder.Valid() && fresh(folder) && folder.lastHandoff == lastHandoff
      invariant folder.model == FoldUpTo(events, i, lastHandoff)
      invariant forall k :: 0 <= k < |folder.objects| ==> fresh(folder.objects[k])
    {
      var e := events[i];
      if e.kind.Comment? && e.actor.Human? { folder.Comment(e); }
      else if e.kind.ReplyTo? { folder.Reply(e); }
      else if e.kind.Edit? && e.actor.Human? { folder.Edit(e); }
      else if e.kind.StatusOf? { folder.Status(e); }
    }
    threads, order := folder.threads, folder.order;
  }
}
