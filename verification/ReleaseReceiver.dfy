/** The release receiver of prototype/temporal-factory/services/release_server.py (`Store.deliver`), participating and
    opaque. */
module ReleaseReceiver {
  import opened Prelude

  datatype Mode = Participating | Opaque

  type Bytes = seq<bv8>

  /** A Message part: what `delivered_bytes` makes of it. */
  datatype Part = Inline(content: Bytes, mediaType: string) | Url(mediaType: string) | Empty(mediaType: string)

  datatype Message = Message(messageId: string, taskId: string, contextId: string, parts: seq<Part>)

  datatype Outcome = Completed(receiptId: string, length: nat) | Rejected(reason: string)

  /** A row of `deliveries`. The fingerprint stands for the digest of the Message without its messageId. */
  datatype Row = Row(
    taskId: string, contextId: string, messageId: Option<string>, fingerprint: Message, outcome: Outcome,
    sends: nat, effects: nat)

  /** Fresh UUIDs for one delivery. */
  datatype Uuids = Uuids(taskId: string, contextId: string, receiptId: string)

  const MAX_BYTES := 1_000_000

  function Fingerprint(m: Message): Message { m.(messageId := "") }

  /** Why a Message's document is refused. */
  function Refusal(m: Message): Option<string> {
    if |m.parts| != 1 then Some("deliver exactly one Part carrying the document")
    else match m.parts[0]
      case Url(_) => Some("URL parts are not fetched; deliver the document bytes inline")
      case Empty(_) => Some("the Part carries no content")
      case Inline(content, mediaType) =>
        if mediaType == "" then Some("the delivered Part must declare its mediaType")
        else if |content| > MAX_BYTES then Some("the delivered document exceeds the limit")
        else None
  }

  predicate Deliverable(m: Message) { Refusal(m).None? }

  /** The row of a Message not seen before. */
  function NewRow(mode: Mode, m: Message, ids: Uuids): Row {
    var outcome := match Refusal(m)
      case Some(reason) => Rejected(reason)
      case None => Completed(ids.receiptId, |m.parts[0].content|);
    Row(ids.taskId, if m.contextId != "" then m.contextId else ids.contextId,
        if mode.Participating? then Some(m.messageId) else None, Fingerprint(m), outcome, 1,
          if outcome.Completed? then 1 else 0)
  }

  /** The row of a messageId; only a participating receiver looks for one. */
  function Prior(mode: Mode, rows: seq<Row>, messageId: string): (found: Option<nat>)
    ensures found.Some? ==>
      mode.Participating? && found.value < |rows| && rows[found.value].messageId == Some(messageId)
    ensures found.None? && mode.Participating? ==> forall k :: 0 <= k < |rows| ==> rows[k].messageId != Some(messageId)
  {
    if mode.Opaque? || rows == [] then None
    else if rows[|rows| - 1].messageId == Some(messageId) then Some(|rows| - 1)
    else Prior(mode, rows[..|rows| - 1], messageId)
  }

  /** `deliver`: what it returns and leaves. */
  function Deliver(mode: Mode, rows: seq<Row>, m: Message, ids: Uuids): (Result<Row>, seq<Row>) {
    if m.taskId != "" then (Failure("release Tasks are terminal; send a new Message without taskId"), rows)
    else if m.messageId == "" then (Failure("A2A messageId is required"), rows)
    else match Prior(mode, rows, m.messageId)
      case Some(k) =>
        if rows[k].fingerprint != Fingerprint(m) then (Failure("messageId reused with different content"), rows)
        else (Success(rows[k]), rows[k := rows[k].(sends := rows[k].sends + 1)])
      case None =>
        var row := NewRow(mode, m, ids);
        (Success(row), rows + [row])
  }

  /** The receiver's database. */
  class Store {
    const mode: Mode
    var rows: seq<Row>

    constructor (m: Mode)
      ensures mode == m && rows == []
    {
      mode, rows := m, [];
    }

    /** `deliver`. */
    method DeliverMessage(m: Message, ids: Uuids) returns (result: Result<Row>)
      modifies this
      ensures (result, rows) == Deliver(mode, old(rows), m, ids)
    {
      if m.taskId != "" { return Failure("release Tasks are terminal; send a new Message without taskId"); }
      if m.messageId == "" { return Failure("A2A messageId is required"); }
      if mode.Participating? {
        var prior := Prior(mode, rows, m.messageId);
        if prior.Some? {
          var found := rows[prior.value];
          if found.fingerprint != Fingerprint(m) { return Failure("messageId reused with different content"); }
          rows := rows[prior.value := found.(sends := found.sends + 1)];
          return Success(found);
        }
      }
      var row := Row(ids.taskId, if m.contextId != "" then m.contextId else ids.contextId,
                     if mode.Participating? then Some(m.messageId) else None, Fingerprint(m), Rejected(""), 1, 0);
      match Refusal(m) {
        case Some(reason) => row := row.(outcome := Rejected(reason));
        case None => row := row.(outcome := Completed(ids.receiptId, |m.parts[0].content|), effects := 1);
      }
      rows := rows + [row];
      result := Success(row);
    }
  }

  // Whole histories.

  datatype Delivery = Delivery(message: Message, ids: Uuids)

  function Run(mode: Mode, ds: seq<Delivery>): seq<Row> {
    if ds == [] then []
    else
      var n := |ds| - 1;
      Deliver(mode, Run(mode, ds[..n]), ds[n].message, ds[n].ids).1
  }

  /** The Messages whose delivery was answered with a Task. */
  function Answered(mode: Mode, ds: seq<Delivery>): seq<Message> {
    if ds == [] then []
    else
      var n := |ds| - 1;
      if Deliver(mode, Run(mode, ds[..n]), ds[n].message, ds[n].ids).0.Success?
      then Answered(mode, ds[..n]) + [ds[n].message] else Answered(mode, ds[..n])
  }

  function Sends(rows: seq<Row>): nat {
    if rows == [] then 0 else Sends(rows[..|rows| - 1]) + rows[|rows| - 1].sends
  }

  function Effects(rows: seq<Row>): nat {
    if rows == [] then 0 else Effects(rows[..|rows| - 1]) + rows[|rows| - 1].effects
  }

  function DeliverableCount(ms: seq<Message>): nat {
    if ms == [] then 0 else DeliverableCount(ms[..|ms| - 1]) + if Deliverable(ms[|ms| - 1]) then 1 else 0
  }

  /** The distinct messageIds of the deliverable Messages. */
  function AcceptedIds(ms: seq<Message>): set<string> {
    set k | 0 <= k < |ms| && Deliverable(ms[k]) :: ms[k].messageId
  }

  lemma {:induction false} CountedAgain(rows: seq<Row>, k: nat)
    requires k < |rows|
    ensures Sends(rows[k := rows[k].(sends := rows[k].sends + 1)]) == Sends(rows) + 1
    ensures Effects(rows[k := rows[k].(sends := rows[k].sends + 1)]) == Effects(rows)
  {
    var rows' := rows[k := rows[k].(sends := rows[k].sends + 1)];
    var n := |rows| - 1;
    if k < n {
      assert rows'[..n] == rows[..n][k := rows[k].(sends := rows[k].sends + 1)];
      CountedAgain(rows[..n], k);
    } else {
      assert rows'[..n] == rows[..n];
    }
  }

  lemma Appended(rows: seq<Row>, row: Row)
    ensures Sends(rows + [row]) == Sends(rows) + row.sends && Effects(rows + [row]) == Effects(rows) + row.effects
  {
    assert (rows + [row])[..|rows|] == rows;
  }

  lemma DeliveryCounts(mode: Mode, rows: seq<Row>, m: Message, ids: Uuids)
    ensures var (result, rows') := Deliver(mode, rows, m, ids);
      && Sends(rows') == Sends(rows) + (if result.Success? then 1 else 0)
      && Effects(rows') == Effects(rows) +
           if result.Success? && Prior(mode, rows, m.messageId).None? && Deliverable(m) then 1 else 0
  {
    hide Refusal, Sends, Effects, Fingerprint;
    var prior := Prior(mode, rows, m.messageId);
    if prior.Some? { CountedAgain(rows, prior.value); } else { Appended(rows, NewRow(mode, m, ids)); }
  }

  /** Every answered delivery is counted once in `sends`, in both modes. */
  lemma {:induction false} SendsCountAnswers(mode: Mode, ds: seq<Delivery>)
    ensures Sends(Run(mode, ds)) == |Answered(mode, ds)|
  {
    hide Deliver, Sends;
    if ds == [] {
      assert Sends([]) == 0 by { NoRows(); }
    } else {
      var n := |ds| - 1;
      SendsCountAnswers(mode, ds[..n]);
      DeliveryCounts(mode, Run(mode, ds[..n]), ds[n].message, ds[n].ids);
    }
  }

  lemma NoRows()
    ensures Sends([]) == 0 && Effects([]) == 0
  {
  }

  lemma DeliverableAppended(ms: seq<Message>, m: Message)
    ensures DeliverableCount(ms + [m]) == DeliverableCount(ms) + if Deliverable(m) then 1 else 0
  {
    assert (ms + [m])[..|ms|] == ms;
  }

  /** An opaque receiver makes one effect for every answered deliverable Message, resent or not. */
  lemma {:induction false} OpaqueRepeatsEffects(ds: seq<Delivery>)
    ensures Effects(Run(Opaque, ds)) == DeliverableCount(Answered(Opaque, ds))
  {
    hide Deliver, Sends, Effects, DeliverableCount, Deliverable;
    if ds == [] {
      NoRows();
      assert DeliverableCount([]) == 0 by { NoMessages(); }
    } else {
      var n := |ds| - 1;
      OpaqueRepeatsEffects(ds[..n]);
      DeliveryCounts(Opaque, Run(Opaque, ds[..n]), ds[n].message, ds[n].ids);
      DeliverableAppended(Answered(Opaque, ds[..n]), ds[n].message);
    }
  }

  lemma NoMessages()
    ensures DeliverableCount([]) == 0
  {
  }

  // What the rows of a participating receiver tell.

  predicate Tells(row: Row, m: Message) {
    && row.messageId == Some(m.messageId) && row.fingerprint == Fingerprint(m)
    && (row.outcome.Completed? <==> Deliverable(m))
    && row.effects == if Deliverable(m) then 1 else 0
  }

  ghost predicate RowTold(row: Row, answered: seq<Message>) {
    exists j :: 0 <= j < |answered| && Tells(row, answered[j])
  }

  ghost predicate MessageKept(rows: seq<Row>, m: Message) {
    exists k :: 0 <= k < |rows| && Tells(rows[k], m)
  }

  ghost predicate OneRowEach(rows: seq<Row>) {
    forall i, k :: 0 <= i < k < |rows| ==> rows[i].messageId != rows[k].messageId
  }

  /** One row per messageId; its content and outcome are those of every answered Message with that id. */
  ghost predicate RowsTell(rows: seq<Row>, answered: seq<Message>) {
    && OneRowEach(rows)
    && (forall k :: 0 <= k < |rows| ==> RowTold(rows[k], answered))
    && (forall j :: 0 <= j < |answered| ==> MessageKept(rows, answered[j]))
  }

  lemma SameContentSameFate(m: Message, m': Message)
    requires Fingerprint(m) == Fingerprint(m')
    ensures Deliverable(m) == Deliverable(m')
  {
    assert Fingerprint(m).parts == Fingerprint(m').parts;
  }

  /** A row told stays told, whatever its count of sends. */
  lemma StaysTold(row: Row, row': Row, answered: seq<Message>, m: Message)
    requires RowTold(row, answered) && row'.(sends := row.sends) == row
    ensures RowTold(row', answered + [m])
  {
    var j :| 0 <= j < |answered| && Tells(row, answered[j]);
    assert Tells(row', (answered + [m])[j]);
  }

  lemma StaysKept(rows: seq<Row>, rows': seq<Row>, m: Message)
    requires MessageKept(rows, m) && |rows| <= |rows'|
    requires forall k :: 0 <= k < |rows| ==> rows'[k].(sends := rows[k].sends) == rows[k]
    ensures MessageKept(rows', m)
  {
    var k :| 0 <= k < |rows| && Tells(rows[k], m);
    assert Tells(rows'[k], m);
  }

  /** The answered Message m stands in row k; every other row is as it was. */
  lemma StillTell(rows: seq<Row>, rows': seq<Row>, answered: seq<Message>, m: Message, k: nat)
    requires RowsTell(rows, answered) && OneRowEach(rows') && k < |rows'| && Tells(rows'[k], m)
    requires |rows| <= |rows'| && forall i :: 0 <= i < |rows| ==> rows'[i].(sends := rows[i].sends) == rows[i]
    requires |rows'| == |rows| || (k == |rows| && |rows'| == |rows| + 1)
    ensures RowsTell(rows', answered + [m])
  {
    hide Tells, OneRowEach;
    var answered' := answered + [m];
    forall i | 0 <= i < |rows'| ensures RowTold(rows'[i], answered') {
      if i < |rows| {
        StaysTold(rows[i], rows'[i], answered, m);
      } else {
        assert Tells(rows'[i], answered'[|answered|]);
      }
    }
    forall j | 0 <= j < |answered'| ensures MessageKept(rows', answered'[j]) {
      if j < |answered| { StaysKept(rows, rows', answered[j]); }
    }
  }

  lemma DeliveryTells(rows: seq<Row>, answered: seq<Message>, m: Message, ids: Uuids)
    requires RowsTell(rows, answered) && Deliver(Participating, rows, m, ids).0.Success?
    ensures RowsTell(Deliver(Participating, rows, m, ids).1, answered + [m])
  {
    hide RowTold, MessageKept, Refusal, NewRow;
    var rows' := Deliver(Participating, rows, m, ids).1;
    var prior := Prior(Participating, rows, m.messageId);
    if prior.Some? {
      ToldOf(rows[prior.value], answered, m);
      StillTell(rows, rows', answered, m, prior.value);
    } else {
      NewRowTells(m, ids);
      StillTell(rows, rows', answered, m, |rows|);
    }
  }

  /** A row tells every Message with its id and content. */
  lemma ToldOf(row: Row, answered: seq<Message>, m: Message)
    requires RowTold(row, answered) && row.messageId == Some(m.messageId) && row.fingerprint == Fingerprint(m)
    ensures Tells(row, m)
  {
    var j :| 0 <= j < |answered| && Tells(row, answered[j]);
    SameContentSameFate(answered[j], m);
  }

  lemma NewRowTells(m: Message, ids: Uuids)
    ensures Tells(NewRow(Participating, m, ids), m)
  {
  }

  lemma {:induction false} RunTells(ds: seq<Delivery>)
    ensures RowsTell(Run(Participating, ds), Answered(Participating, ds))
  {
    hide RowsTell;
    if ds == [] {
      assert RowsTell([], []) by { NothingTold(); }
    } else {
      var n := |ds| - 1;
      RunTells(ds[..n]);
      var rows := Run(Participating, ds[..n]);
      if Deliver(Participating, rows, ds[n].message, ds[n].ids).0.Success? {
        DeliveryTells(rows, Answered(Participating, ds[..n]), ds[n].message, ds[n].ids);
      }
    }
  }

  lemma NothingTold()
    ensures RowsTell([], [])
  {
  }

  function EffectIds(rows: seq<Row>): set<string> {
    set k | 0 <= k < |rows| && rows[k].effects == 1 && rows[k].messageId.Some? :: rows[k].messageId.value
  }

  lemma {:induction false} EffectsAreIds(rows: seq<Row>)
    requires forall i, k :: 0 <= i < k < |rows| ==> rows[i].messageId != rows[k].messageId
    requires forall k :: 0 <= k < |rows| ==> rows[k].messageId.Some? && rows[k].effects <= 1
    ensures Effects(rows) == |EffectIds(rows)|
  {
    if rows != [] {
      var n := |rows| - 1;
      EffectsAreIds(rows[..n]);
      var id := rows[n].messageId.value;
      assert id !in EffectIds(rows[..n]);
      assert EffectIds(rows) == EffectIds(rows[..n]) + if rows[n].effects == 1 then {id} else {};
    }
  }

  lemma AcceptedHaveEffects(rows: seq<Row>, answered: seq<Message>)
    requires RowsTell(rows, answered)
    ensures EffectIds(rows) == AcceptedIds(answered)
  {
    hide OneRowEach, Deliverable, Fingerprint;
    forall id | id in EffectIds(rows) ensures id in AcceptedIds(answered) {
      var k :| 0 <= k < |rows| && rows[k].effects == 1 && rows[k].messageId == Some(id);
      assert RowTold(rows[k], answered);
    }
    forall id | id in AcceptedIds(answered) ensures id in EffectIds(rows) {
      var j :| 0 <= j < |answered| && Deliverable(answered[j]) && answered[j].messageId == id;
      assert MessageKept(rows, answered[j]);
    }
  }

  /** A participating receiver makes exactly one effect for each distinct messageId it accepted, however often each
      Message was sent. */
  lemma ParticipatingEffectsAreDistinct(ds: seq<Delivery>)
    ensures Effects(Run(Participating, ds)) == |AcceptedIds(Answered(Participating, ds))|
  {
    hide Run, Answered, Effects, Deliverable, Fingerprint;
    RunTells(ds);
    var rows, answered := Run(Participating, ds), Answered(Participating, ds);
    forall k | 0 <= k < |rows| ensures rows[k].messageId.Some? && rows[k].effects <= 1 {
      assert RowTold(rows[k], answered);
    }
    EffectsAreIds(rows);
    AcceptedHaveEffects(rows, answered);
  }

  /** A row keeps everything but its count of sends. */
  lemma {:induction false} RowsStay(ds: seq<Delivery>, n: nat, k: nat)
    requires n <= |ds| && k < |Run(Participating, ds[..n])|
    ensures k < |Run(Participating, ds)|
    ensures Run(Participating, ds)[k].(sends := 0) == Run(Participating, ds[..n])[k].(sends := 0)
    decreases |ds|
  {
    hide NewRow, Fingerprint, Prior;
    if n == |ds| {
      assert ds[..n] == ds;
    } else {
      assert ds[..|ds| - 1][..n] == ds[..n];
      RowsStay(ds[..|ds| - 1], n, k);
    }
  }

  lemma OneRowFound(rows: seq<Row>, messageId: string, k: nat)
    requires OneRowEach(rows) && k < |rows| && rows[k].messageId == Some(messageId)
    ensures Prior(Participating, rows, messageId) == Some(k)
  {
    var found := Prior(Participating, rows, messageId).value;
    assert rows[found].messageId == rows[k].messageId;
  }

  lemma AnsweredRow(rows: seq<Row>, m: Message, ids: Uuids) returns (k: nat)
    requires Deliver(Participating, rows, m, ids).0.Success?
    ensures var (result, rows') := Deliver(Participating, rows, m, ids);
      && k < |rows'| && rows'[k].(sends := 0) == result.value.(sends := 0)
      && rows'[k].messageId == Some(m.messageId) && rows'[k].fingerprint == Fingerprint(m)
      && m.taskId == "" && m.messageId != ""
  {
    hide Refusal, Fingerprint;
    var prior := Prior(Participating, rows, m.messageId);
    k := if prior.Some? then prior.value else |rows|;
  }

  /** Resending a Message to a participating receiver returns the Task, and the receipt, of its first delivery. */
  lemma ResendReturnsSameTask(ds: seq<Delivery>, n: nat, ids: Uuids)
    requires n < |ds| && Deliver(Participating, Run(Participating, ds[..n]), ds[n].message, ds[n].ids).0.Success?
    ensures var first := Deliver(Participating, Run(Participating, ds[..n]), ds[n].message, ds[n].ids).0.value;
      var again := Deliver(Participating, Run(Participating, ds), ds[n].message, ids).0;
      again.Success? && again.value.(sends := 0) == first.(sends := 0)
  {
    hide NewRow, Fingerprint, OneRowEach, RowTold, MessageKept, Prior;
    var m := ds[n].message;
    var k := AnsweredRow(Run(Participating, ds[..n]), m, ds[n].ids);
    assert ds[..n + 1][..n] == ds[..n];
    RowsStay(ds, n + 1, k);
    RunTells(ds);
    OneRowFound(Run(Participating, ds), m.messageId, k);
  }
}
