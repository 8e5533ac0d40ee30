/**
 * The payment-gateway webhook `payment_notification`
 * (backend/controllers/paymentNotificationController/paymentNotification.js):
 * it takes the transaction id out of the composite `order_id`, looks up the
 * transaction and its items, maps the gateway's `transaction_status` onto the
 * status stored in the database, overwrites the stored status, and sends the
 * owed success or failure e-mail unless the e-mail log says it was sent already.
 */
module PaymentNotification {
  import opened Optional
  import opened Store

  // ----- splitting the order id -----

  /** The segments joined back with `-` between them. */
  function Join(segments: seq<string>): (s: string) {
    if |segments| == 0 then ""
    else if |segments| == 1 then segments[0]
    else segments[0] + "-" + Join(segments[1..])
  }

  /** JavaScript's `s.split("-")`: the maximal `-`-free pieces of `s`, in order. */
  function Split(s: string): (r: seq<string>)
    ensures |r| >= 1
    ensures forall k :: 0 <= k < |r| ==> '-' !in r[k]
    ensures Join(r) == s
    ensures ('-' in s) <==> |r| >= 2
  {
    if s == [] then [""]
    else
      var rest := Split(s[1..]);
      if s[0] == '-' then
        assert s == "-" + s[1..];
        [""] + rest
      else
        var r := [[s[0]] + rest[0]] + rest[1..];
        assert r[1..] == rest[1..];
        assert s == [s[0]] + s[1..];
        r
  }

  /** Splitting undoes joining, for segments without a `-`. */
  lemma {:induction false} SplitJoin(segments: seq<string>)
    requires |segments| >= 1
    requires forall k :: 0 <= k < |segments| ==> '-' !in segments[k]
    ensures Split(Join(segments)) == segments
  {
    var head := segments[0];
    if |segments| == 1 {
      SplitFreeSegment(head);
    } else {
      SplitJoin(segments[1..]);
      SplitPrefixed(head, Join(segments[1..]));
      assert [head] + segments[1..] == segments;
    }
  }

  /** A `-`-free string is its own single segment. */
  lemma {:induction false} SplitFreeSegment(s: string)
    requires '-' !in s
    ensures Split(s) == [s]
  {
  }

  /** Splitting `head + "-" + tail` gives `head` followed by the segments of `tail`. */
  lemma {:induction false} SplitPrefixed(head: string, tail: string)
    requires '-' !in head
    ensures Split(head + "-" + tail) == [head] + Split(tail)
    decreases |head|
  {
    if head == [] {
      assert head + "-" + tail == "-" + tail;
    } else {
      var s := head + "-" + tail;
      assert s[0] == head[0] && s[1..] == head[1..] + "-" + tail;
      SplitPrefixed(head[1..], tail);
      assert [head[0]] + head[1..] == head;
    }
  }

  // ----- the transaction id -----

  /** `!order_id || !order_id.includes("-")` fails: the id can be split. */
  predicate WellFormedOrderId(orderId: Option<string>): (b: bool)
    ensures b <==> orderId.Some? && |Split(orderId.value)| >= 2
  {
    orderId.Some? && '-' in orderId.value
  }

  /** `order_id.split("-")[1]`. */
  function TransactionIdOf(orderId: string): (id: string)
    requires '-' in orderId
    ensures '-' !in id
  {
    Split(orderId)[1]
  }

  /**
   * The transaction id is the text between the first and the second `-`
   * (or the end), whatever follows.
   */
  lemma TransactionIdIsSecondSegment(prefix: string, id: string, rest: string)
    requires '-' !in prefix && '-' !in id
    requires rest == [] || rest[0] == '-'
    ensures '-' in prefix + "-" + id + rest
    ensures TransactionIdOf(prefix + "-" + id + rest) == id
  {
    var s := prefix + "-" + id + rest;
    assert s[|prefix|] == '-';
    assert s == prefix + "-" + (id + rest);
    SplitPrefixed(prefix, id + rest);
    if rest == [] {
      SplitFreeSegment(id);
      assert id + rest == id;
    } else {
      assert id + rest == id + "-" + rest[1..];
      SplitPrefixed(id, rest[1..]);
    }
  }

  /** The documented example: `order-64a1f9-1699999999` names transaction `64a1f9`. */
  lemma ExampleOrderId()
    ensures '-' in "order-64a1f9-1699999999"
    ensures TransactionIdOf("order-64a1f9-1699999999") == "64a1f9"
  {
    TransactionIdIsSecondSegment("order", "64a1f9", "-1699999999");
    assert "order" + "-" + "64a1f9" + "-1699999999" == "order-64a1f9-1699999999";
  }

  // ----- status vocabulary -----

  /** The statuses the webhook stores (note the lower-case `b` in `challengebyFDS`). */
  const WebhookStatuses: set<string> :=
    {"completed", "pending", "cancelled", "expired", "denied", "challengebyFDS"}

  /** The `switch (transaction_status)`: gateway status to database status. */
  function DatabaseStatus(transactionStatus: string): (r: string)
    ensures r in WebhookStatuses
    ensures r == "completed" <==> transactionStatus == "settlement" || transactionStatus == "capture"
    ensures r == "cancelled" <==> transactionStatus == "cancel" || transactionStatus == "refund"
    ensures r == "expired" <==> transactionStatus == "expire"
    ensures r == "denied" <==> transactionStatus == "deny"
    ensures r == "challengebyFDS" <==> transactionStatus == "challenge"
    ensures r == "pending" <==>
              (transactionStatus !in {"settlement", "capture", "cancel", "refund", "expire", "deny", "challenge"})
  {
    match transactionStatus
    case "settlement" => "completed"
    case "capture" => "completed"
    case "pending" => "pending"
    case "cancel" => "cancelled"
    case "refund" => "cancelled"
    case "expire" => "expired"
    case "deny" => "denied"
    case "challenge" => "challengebyFDS"
    case _ => "pending"
  }

  /** The e-mail a database status calls for, if any. */
  function PayloadFor(status: string): (r: Option<Payload>)
    ensures r == Some(SuccessTransaction) <==> status == "completed"
    ensures r == Some(FailTransaction) <==> status in {"cancelled", "expired", "denied"}
    ensures r == None <==> status !in {"completed", "cancelled", "expired", "denied"}
  {
    if status == "completed" then Some(SuccessTransaction)
    else if status == "cancelled" || status == "expired" || status == "denied" then Some(FailTransaction)
    else None
  }

  /** In the gateway's own terms: which notifications owe which e-mail. */
  lemma GatewayPayload(transactionStatus: string)
    ensures PayloadFor(DatabaseStatus(transactionStatus)) == Some(SuccessTransaction) <==>
              transactionStatus in {"settlement", "capture"}
    ensures PayloadFor(DatabaseStatus(transactionStatus)) == Some(FailTransaction) <==>
              transactionStatus in {"cancel", "refund", "expire", "deny"}
  {
  }

  // ----- the handler -----

  /** The webhook as a function of the state before it. */
  function NotificationOutcome(s: State, orderId: Option<string>, transactionStatus: Option<string>,
                               sendOk: bool, logOk: bool): (r: Outcome)
    ensures r.response.code in {BadRequest, NotFound, OK}
    ensures r.response.success <==> r.response.code == OK
    ensures r.response.error.None? <==> r.response.code == OK
    ensures r.response.code != OK ==> r.state == s
    ensures r.response.code == BadRequest <==> !WellFormedOrderId(orderId)
    ensures !WellFormedOrderId(orderId) ==> r.response == Failure(BadRequest, InvalidOrderId)
    ensures WellFormedOrderId(orderId) && TransactionIdOf(orderId.value) !in s.transactions ==>
              r.response == Failure(NotFound, TransactionNotFound)
    ensures WellFormedOrderId(orderId) && TransactionIdOf(orderId.value) in s.transactions &&
            ItemsOf(s.items, TransactionIdOf(orderId.value)) == [] ==>
              r.response == Failure(NotFound, ItemsNotFound)
    ensures r.response.code == NotFound <==>
              WellFormedOrderId(orderId) &&
              (TransactionIdOf(orderId.value) !in s.transactions ||
               ItemsOf(s.items, TransactionIdOf(orderId.value)) == [])
    ensures r.response.code == OK ==>
              var id := TransactionIdOf(orderId.value);
              var status := DatabaseStatus(transactionStatus.GetOr(""));
              && r.state.transactions == s.transactions[id := s.transactions[id].(status := status)]
              && r.state.items == s.items
              && r.response.transaction == Some(r.state.transactions[id])
              && r.response.items == ItemsOf(s.items, id)
  {
    if !WellFormedOrderId(orderId) then Outcome(s, Failure(BadRequest, InvalidOrderId))
    else
      var id := TransactionIdOf(orderId.value);
      var items := ItemsOf(s.items, id);
      if id !in s.transactions then Outcome(s, Failure(NotFound, TransactionNotFound))
      else if |items| == 0 then Outcome(s, Failure(NotFound, ItemsNotFound))
      else
        // an absent transaction_status falls to the switch's default, like "" does
        var status := DatabaseStatus(transactionStatus.GetOr(""));
        var t := s.transactions[id].(status := status);
        var written := s.(transactions := s.transactions[id := t]);
        var payload := PayloadFor(status);
        var after := if payload.Some? then AfterSendOnce(written, id, payload.value, t, items, sendOk, logOk)
                     else written;
        Outcome(after, Response(OK, true, None, Some(t), items))
  }

  /** A successful delivery sends the owed e-mail once and logs it, unless the log already has it. */
  lemma NotificationEmail(s: State, orderId: Option<string>, transactionStatus: Option<string>,
                          sendOk: bool, logOk: bool)
    requires NotificationOutcome(s, orderId, transactionStatus, sendOk, logOk).response.code == OK
    ensures var r := NotificationOutcome(s, orderId, transactionStatus, sendOk, logOk).state;
            var id := TransactionIdOf(orderId.value);
            var t := r.transactions[id];
            var owed := PayloadFor(DatabaseStatus(transactionStatus.GetOr("")));
            var isNew := owed.Some? && !Logged(s.emailLog, id, owed.value);
            && r.outbox == s.outbox + (if isNew && sendOk then [Email(owed.value, t.customerEmail, id, t, ItemsOf(s.items, id))] else [])
            && r.emailLog == s.emailLog + (if isNew && logOk then [LogRecord(id, t.customerEmail, owed.value)] else [])
  {
  }

  /** Other transactions are never touched. */
  lemma NotificationTouchesOnlyItsTransaction(s: State, orderId: Option<string>, transactionStatus: Option<string>,
                                              sendOk: bool, logOk: bool, other: string)
    requires other in s.transactions
    requires !WellFormedOrderId(orderId) || other != TransactionIdOf(orderId.value)
    ensures var r := NotificationOutcome(s, orderId, transactionStatus, sendOk, logOk).state;
            other in r.transactions && r.transactions[other] == s.transactions[other]
  {
  }

  /**
   * Delivering the same notification again, once the first delivery's log
   * record was saved, changes nothing and answers the same.
   */
  lemma RedeliveryIsIdempotent(s: State, orderId: Option<string>, transactionStatus: Option<string>,
                               sendOk: bool, sendOk': bool, logOk': bool)
    ensures var first := NotificationOutcome(s, orderId, transactionStatus, sendOk, true);
            NotificationOutcome(first.state, orderId, transactionStatus, sendOk', logOk') == first
  {
  }

  /** When every e-mail that goes out is also logged, the webhook keeps e-mails unique per (id, payload). */
  lemma NotificationPreservesAtMostOnce(s: State, orderId: Option<string>, transactionStatus: Option<string>,
                                        sendOk: bool, logOk: bool)
    requires SentAtMostOnce(s)
    requires sendOk ==> logOk
    ensures SentAtMostOnce(NotificationOutcome(s, orderId, transactionStatus, sendOk, logOk).state)
  {
    if WellFormedOrderId(orderId) {
      var id := TransactionIdOf(orderId.value);
      if id in s.transactions && ItemsOf(s.items, id) != [] {
        var status := DatabaseStatus(transactionStatus.GetOr(""));
        var t := s.transactions[id].(status := status);
        var written := s.(transactions := s.transactions[id := t]);
        assert SentAtMostOnce(written);
        var payload := PayloadFor(status);
        if payload.Some? {
          SendOncePreservesAtMostOnce(written, id, payload.value, t, ItemsOf(s.items, id), sendOk, logOk);
        }
      }
    }
  }

  /** The documented example: `settlement` for `order-64a1f9-1699999999` completes the order and sends one success e-mail. */
  lemma ExampleSettlement(s: State)
    requires "64a1f9" in s.transactions && ItemsOf(s.items, "64a1f9") != []
    requires s.emailLog == [] && s.outbox == []
    ensures var r := NotificationOutcome(s, Some("order-64a1f9-1699999999"), Some("settlement"), true, true);
            && r.response.code == OK
            && r.state.transactions["64a1f9"].status == "completed"
            && |r.state.outbox| == 1
            && r.state.outbox[0].payload == SuccessTransaction
            && r.state.emailLog == [LogRecord("64a1f9", s.transactions["64a1f9"].customerEmail, SuccessTransaction)]
  {
    var orderId := "order-64a1f9-1699999999";
    ExampleOrderId();
    var t := s.transactions["64a1f9"].(status := "completed");
    assert DatabaseStatus("settlement") == "completed";
    assert PayloadFor("completed") == Some(SuccessTransaction);
    assert !Logged([], "64a1f9", SuccessTransaction);
    var written := s.(transactions := s.transactions["64a1f9" := t]);
    var after := AfterSendOnce(written, "64a1f9", SuccessTransaction, t, ItemsOf(s.items, "64a1f9"), true, true);
    assert NotificationOutcome(s, Some(orderId), Some("settlement"), true, true).state == after;
  }

  /** The webhook handler, updating the stores in place. */
  method PaymentNotification(db: Database, orderId: Option<string>, transactionStatus: Option<string>,
                             sendOk: bool, logOk: bool) returns (response: Response)
    modifies db
    ensures Outcome(db.Snapshot(), response) ==
              NotificationOutcome(old(db.Snapshot()), orderId, transactionStatus, sendOk, logOk)
  {
    if orderId.None? || '-' !in orderId.value {
      return Failure(BadRequest, InvalidOrderId);
    }
    var id := Split(orderId.value)[1];
    var found := id in db.transactions;
    var items := ItemsOf(db.items, id);
    if !found {
      return Failure(NotFound, TransactionNotFound);
    }
    if |items| == 0 {
      return Failure(NotFound, ItemsNotFound);
    }
    var status := DatabaseStatus(transactionStatus.GetOr(""));
    var t := db.transactions[id].(status := status);
    db.transactions := db.transactions[id := t];
    var payload := PayloadFor(status);
    if payload.Some? {
      db.SendOnce(id, payload.value, t, items, sendOk, logOk);
    }
    response := Response(OK, true, None, Some(t), items);
  }
}
