/** What the release receiver answers to one delivery after any deliveries, said over its rows and the Message's parts:
    `Store.deliver` of prototype/temporal-factory/services/release_server.py. */
module ReleaseAnswers {
  import opened Prelude
  import opened ReleaseReceiver

  /** The one document a Message may carry: inline, typed, and within the limit. */
  predicate CarriesDocument(m: Message) {
    |m.parts| == 1 && m.parts[0].Inline? && m.parts[0].mediaType != "" && |m.parts[0].content| <= 1_000_000
  }

  /** The same Message but for its messageId. */
  predicate SameContent(row: Row, m: Message) {
    row.fingerprint.taskId == m.taskId && row.fingerprint.contextId == m.contextId && row.fingerprint.parts == m.parts
  }

  /** The row of a Message delivered for the first time, or to an opaque receiver. */
  predicate FirstDelivery(mode: Mode, row: Row, m: Message, ids: Uuids) {
    && row.taskId == ids.taskId && row.contextId == (if m.contextId != "" then m.contextId else ids.contextId)
    && row.messageId == (if mode.Participating? then Some(m.messageId) else None)
    && SameContent(row, m) && row.fingerprint.messageId == "" && row.sends == 1
    && if CarriesDocument(m) then row.outcome == Completed(ids.receiptId, |m.parts[0].content|) && row.effects == 1
       else row.outcome.Rejected? && row.effects == 0 && WhyRejected(m, row.outcome.reason)
  }

  /** The reason names what is wrong with the document. */
  predicate WhyRejected(m: Message, reason: string) {
    if |m.parts| != 1 then reason == "deliver exactly one Part carrying the document"
    else match m.parts[0]
      case Url(_) => reason == "URL parts are not fetched; deliver the document bytes inline"
      case Empty(_) => reason == "the Part carries no content"
      case Inline(content, mediaType) =>
        if mediaType == "" then reason == "the delivered Part must declare its mediaType"
        else |content| > 1_000_000 && reason == "the delivered document exceeds the limit"
  }

  /** One delivery, case by case. Only a participating receiver knows a Message again: it then returns the first row,
      with one more send and no new effect, or refuses other content. */
  predicate DeliveryTold(mode: Mode, rows: seq<Row>, m: Message, ids: Uuids, result: Result<Row>, rows': seq<Row>) {
    if m.taskId != "" then
      result == Failure("release Tasks are terminal; send a new Message without taskId") && rows' == rows
    else if m.messageId == "" then result == Failure("A2A messageId is required") && rows' == rows
    else if mode.Participating? && exists k :: 0 <= k < |rows| && rows[k].messageId == Some(m.messageId) then
      forall k :: 0 <= k < |rows| && rows[k].messageId == Some(m.messageId) ==>
        if SameContent(rows[k], m) then
          result == Success(rows[k]) && rows' == rows[k := rows[k].(sends := rows[k].sends + 1)]
        else result == Failure("messageId reused with different content") && rows' == rows
    else
      && result.Success? && FirstDelivery(mode, result.value, m, ids) && rows' == rows + [result.value]
  }

  lemma NewRowIsTold(mode: Mode, m: Message, ids: Uuids)
    requires m.taskId == ""
    ensures FirstDelivery(mode, NewRow(mode, m, ids), m, ids)
  {
  }

  /** After any deliveries, the next one is answered and recorded as told. */
  lemma DeliveriesExactly(mode: Mode, ds: seq<Delivery>, m: Message, ids: Uuids)
    ensures var rows := Run(mode, ds); var (result, rows') := Deliver(mode, rows, m, ids);
      DeliveryTold(mode, rows, m, ids, result, rows')
  {
    hide NewRow, FirstDelivery, RowTold, MessageKept, Run, Answered, OneRowEach;
    var rows := Run(mode, ds);
    if m.taskId == "" { NewRowIsTold(mode, m, ids); }
    if mode.Participating? {
      RunTells(ds);
      forall k | 0 <= k < |rows| && rows[k].messageId == Some(m.messageId)
        ensures Prior(mode, rows, m.messageId) == Some(k)
        ensures SameContent(rows[k], m) <==> rows[k].fingerprint == Fingerprint(m)
      {
        OneRowFound(rows, m.messageId, k);
        assert RowTold(rows[k], Answered(Participating, ds));
        NoMessageId(rows[k], Answered(Participating, ds));
      }
    }
  }

  /** A row's fingerprint is a Message without its messageId. */
  lemma NoMessageId(row: Row, answered: seq<Message>)
    requires RowTold(row, answered)
    ensures row.fingerprint.messageId == ""
  {
    var j :| 0 <= j < |answered| && Tells(row, answered[j]);
  }
}
