/**
 * The three document collections both payment handlers work on
 * (transactions, transaction items, e-mail log), the e-mails they emit,
 * and the e-mail deduplication guard they share.
 *
 * The collections are modelled as values: a transaction map keyed by id,
 * an item map from transaction id to that transaction's items (what
 * `TransactionItems.find({ transaction_id })` returns), and the e-mail
 * log as the sequence of records saved so far. Sending an e-mail is an
 * append to a ghost outbox.
 */
module Store {
  import opened Optional

  /** A stored transaction; only the fields the handlers read or write. */
  datatype Transaction = Transaction(status: string, customerEmail: string)

  /** A line item of a transaction. */
  datatype TransactionItem = TransactionItem(productId: string, qty: int)

  /** The two e-mail payloads the handlers can owe. */
  datatype Payload = SuccessTransaction | FailTransaction {
    /** The payload string stored in the e-mail log. */
    function Text(): (s: string)
      ensures s == "Success Transaction" || s == "Fail Transaction"
      ensures (s == "Success Transaction") == SuccessTransaction?
    {
      match this
      case SuccessTransaction => "Success Transaction"
      case FailTransaction => "Fail Transaction"
    }
  }

  /** A document of the e-mail log collection. */
  datatype LogRecord = LogRecord(transactionId: string, customerEmail: string, payload: Payload)

  /** One e-mail handed to the success or failure sender. */
  datatype Email = Email(payload: Payload, recipient: string, transactionId: string,
                         transaction: Transaction, items: seq<TransactionItem>)

  /** The whole persistent state the handlers see, plus the outbox of sent e-mails. */
  datatype State = State(transactions: map<string, Transaction>,
                         items: map<string, seq<TransactionItem>>,
                         emailLog: seq<LogRecord>,
                         outbox: seq<Email>)

  /** Which error a response reports: each stands for one of the handlers' error `message`s. */
  datatype Reason =
    | InvalidOrderId       // the webhook's "Invalid order_id format."
    | TransactionNotFound  // a transaction with that id is not stored
    | ItemsNotFound        // the webhook's "No transaction items found ..."
    | MissingParameter     // the override's "Invalid transaction ID or status."
    | InvalidStatus        // the override's "Invalid status! Status must be between 1 and 6."
    | InvalidIdFormat      // the override's "Invalid transaction ID format!"

  /** The HTTP status code and the parts of the JSON body the model keeps; `error` is None on success. */
  datatype Response = Response(code: int, success: bool, error: Option<Reason>,
                               transaction: Option<Transaction>, items: seq<TransactionItem>)

  /** What a handler leaves behind: the new state and its response. */
  datatype Outcome = Outcome(state: State, response: Response)

  const BadRequest: int := 400
  const NotFound: int := 404
  const OK: int := 200

  /** An error response: `success: false`, the error's message, `data: null`. */
  function Failure(code: int, reason: Reason): Response {
    Response(code, false, Some(reason), None, [])
  }

  /** `TransactionItems.find({ transaction_id: id })`: no items means the empty list. */
  function ItemsOf(items: map<string, seq<TransactionItem>>, id: string): seq<TransactionItem> {
    if id in items then items[id] else []
  }

  /** `EmailLogs.findOne({ transaction_id: id, payload: p })` finds a record. */
  predicate Logged(log: seq<LogRecord>, id: string, p: Payload) {
    exists i :: 0 <= i < |log| && log[i].transactionId == id && log[i].payload == p
  }

  /** Every e-mail in the outbox has its log record, and no (id, payload) pair was e-mailed twice. */
  predicate SentAtMostOnce(s: State) {
    && (forall i :: 0 <= i < |s.outbox| ==> Logged(s.emailLog, s.outbox[i].transactionId, s.outbox[i].payload))
    && (forall i, j :: 0 <= i < j < |s.outbox| ==>
          s.outbox[i].transactionId != s.outbox[j].transactionId || s.outbox[i].payload != s.outbox[j].payload)
  }

  /**
   * The deduplication guard: if the log already holds (id, p) nothing happens;
   * otherwise the e-mail is sent and the log record saved side by side, each of
   * which may fail on its own (`sendOk`, `logOk`) without the other noticing.
   */
  function AfterSendOnce(s: State, id: string, p: Payload, t: Transaction, items: seq<TransactionItem>,
                         sendOk: bool, logOk: bool): (r: State)
    ensures r.transactions == s.transactions && r.items == s.items
    ensures Logged(s.emailLog, id, p) ==> r == s
    ensures !Logged(s.emailLog, id, p) && sendOk ==>
              r.outbox == s.outbox + [Email(p, t.customerEmail, id, t, items)]
    ensures !Logged(s.emailLog, id, p) && !sendOk ==> r.outbox == s.outbox
    ensures !Logged(s.emailLog, id, p) && logOk ==>
              r.emailLog == s.emailLog + [LogRecord(id, t.customerEmail, p)]
    ensures !Logged(s.emailLog, id, p) && !logOk ==> r.emailLog == s.emailLog
    ensures logOk ==> Logged(r.emailLog, id, p)
  {
    if Logged(s.emailLog, id, p) then s
    else
      var log := if logOk then s.emailLog + [LogRecord(id, t.customerEmail, p)] else s.emailLog;
      var sent := if sendOk then s.outbox + [Email(p, t.customerEmail, id, t, items)] else s.outbox;
      assert logOk ==> log[|s.emailLog|].transactionId == id && log[|s.emailLog|].payload == p;
      State(s.transactions, s.items, log, sent)
  }

  /** Appending to the log never forgets a record. */
  lemma LoggedMonotone(log: seq<LogRecord>, more: seq<LogRecord>, id: string, p: Payload)
    requires Logged(log, id, p)
    ensures Logged(log + more, id, p)
  {
    var i :| 0 <= i < |log| && log[i].transactionId == id && log[i].payload == p;
    assert (log + more)[i] == log[i];
  }

  /**
   * The guard keeps "at most one e-mail per (id, payload)" as long as an e-mail
   * that goes out is also logged. A send whose log write fails breaks it: see
   * SendWithoutLogResends.
   */
  lemma SendOncePreservesAtMostOnce(s: State, id: string, p: Payload, t: Transaction,
                                    items: seq<TransactionItem>, sendOk: bool, logOk: bool)
    requires SentAtMostOnce(s)
    requires sendOk ==> logOk
    ensures SentAtMostOnce(AfterSendOnce(s, id, p, t, items, sendOk, logOk))
  {
    var r := AfterSendOnce(s, id, p, t, items, sendOk, logOk);
    if !Logged(s.emailLog, id, p) {
      forall i | 0 <= i < |r.outbox|
        ensures Logged(r.emailLog, r.outbox[i].transactionId, r.outbox[i].payload)
      {
        if i < |s.outbox| {
          assert r.outbox[i] == s.outbox[i];
          if logOk {
            LoggedMonotone(s.emailLog, [LogRecord(id, t.customerEmail, p)],
                           s.outbox[i].transactionId, s.outbox[i].payload);
          }
        }
      }
      forall i, j | 0 <= i < j < |r.outbox|
        ensures r.outbox[i].transactionId != r.outbox[j].transactionId || r.outbox[i].payload != r.outbox[j].payload
      {
        if j < |s.outbox| {
          assert r.outbox[i] == s.outbox[i] && r.outbox[j] == s.outbox[j];
        } else {
          // the new e-mail is for (id, p), which no earlier, logged e-mail can be for
          assert r.outbox[i] == s.outbox[i];
          assert Logged(s.emailLog, s.outbox[i].transactionId, s.outbox[i].payload);
        }
      }
    }
  }

  /**
   * The guard is best effort: when an e-mail goes out but its log record is not
   * saved, the next delivery for the same (id, p) sends the same e-mail again.
   */
  lemma SendWithoutLogResends(s: State, id: string, p: Payload, t: Transaction,
                              items: seq<TransactionItem>, logOk: bool)
    requires !Logged(s.emailLog, id, p)
    ensures var once := AfterSendOnce(s, id, p, t, items, true, false);
            var twice := AfterSendOnce(once, id, p, t, items, true, logOk);
            |twice.outbox| == |s.outbox| + 2 &&
            twice.outbox[|s.outbox|] == twice.outbox[|s.outbox| + 1] == Email(p, t.customerEmail, id, t, items) &&
            !SentAtMostOnce(twice)
  {
  }

  /** The three collections and the outbox, updated in place by the handlers. */
  class Database {
    var transactions: map<string, Transaction>
    var items: map<string, seq<TransactionItem>>
    var emailLog: seq<LogRecord>
    ghost var outbox: seq<Email>

    /** The current contents as a value. */
    ghost function Snapshot(): State
      reads this
    {
      State(transactions, items, emailLog, outbox)
    }

    constructor (transactions: map<string, Transaction>, items: map<string, seq<TransactionItem>>,
                 emailLog: seq<LogRecord>)
      ensures Snapshot() == State(transactions, items, emailLog, [])
    {
      this.transactions := transactions;
      this.items := items;
      this.emailLog := emailLog;
      this.outbox := [];
    }

    /** The deduplication guard: look the pair up in the log, then send and log side by side. */
    method SendOnce(id: string, p: Payload, t: Transaction, itemsSent: seq<TransactionItem>,
                    sendOk: bool, logOk: bool)
      modifies this
      ensures Snapshot() == AfterSendOnce(old(Snapshot()), id, p, t, itemsSent, sendOk, logOk)
    {
      var emailExists := Logged(emailLog, id, p);
      if !emailExists {
        if sendOk {
          outbox := outbox + [Email(p, t.customerEmail, id, t, itemsSent)];
        }
        if logOk {
          emailLog := emailLog + [LogRecord(id, t.customerEmail, p)];
        }
      }
    }
  }
}
