/**
 * The operator endpoint `paying`
 * (backend/controllers/transactionController/completePaymentController.js):
 * it sets a transaction's status from a numeric code 1..6 through a fixed
 * table, after validating its two path parameters in a fixed order, and then
 * applies the same e-mail decision and deduplication guard as the webhook.
 */
module CompletePayment {
  import opened Optional
  import opened Store
  import PaymentNotification

  // ----- parseInt(status, 10) -----

  /** ECMAScript WhiteSpace and LineTerminator code points, which `parseInt` skips. */
  predicate IsJsWhitespace(c: char) {
    || c == '\t' || c == '\n' || c == '\U{000B}' || c == '\U{000C}' || c == '\r' || c == ' '
    || c == '\U{00A0}' || c == '\U{1680}' || ('\U{2000}' <= c <= '\U{200A}')
    || c == '\U{2028}' || c == '\U{2029}' || c == '\U{202F}' || c == '\U{205F}'
    || c == '\U{3000}' || c == '\U{FEFF}'
  }

  predicate IsDigit(c: char) {
    '0' <= c <= '9'
  }

  /** `s` without its leading white space. */
  function TrimStart(s: string): (r: string)
    ensures |r| <= |s| && r == s[|s| - |r|..]
    ensures forall k :: 0 <= k < |s| - |r| ==> IsJsWhitespace(s[k])
    ensures r == [] || !IsJsWhitespace(r[0])
  {
    if s != [] && IsJsWhitespace(s[0]) then TrimStart(s[1..]) else s
  }

  /** The longest prefix of `s` made of decimal digits. */
  function LeadingDigits(s: string): (d: string)
    ensures |d| <= |s| && d == s[..|d|]
    ensures forall k :: 0 <= k < |d| ==> IsDigit(d[k])
    ensures |d| == |s| || !IsDigit(s[|d|])
  {
    if s != [] && IsDigit(s[0]) then [s[0]] + LeadingDigits(s[1..]) else []
  }

  /** The value of a string of decimal digits, most significant first. */
  function DigitsValue(d: string): (v: nat)
    requires forall k :: 0 <= k < |d| ==> IsDigit(d[k])
  {
    if d == [] then 0 else DigitsValue(d[..|d| - 1]) * 10 + DigitValue(d[|d| - 1])
  }

  /** The value of one decimal digit. */
  function DigitValue(c: char): (v: nat)
    requires IsDigit(c)
    ensures v <= 9
  {
    c as int - '0' as int
  }

  /** The text after one optional sign. */
  function Unsigned(t: string): (r: string)
    ensures r == t || (t != [] && r == t[1..])
  {
    if t != [] && (t[0] == '+' || t[0] == '-') then t[1..] else t
  }

  /** The text starts with a minus sign. */
  predicate Negative(t: string) {
    t != [] && t[0] == '-'
  }

  /**
   * `parseInt(s, 10)`: skip white space, take one optional sign, then the
   * leading digits; no digit at all is `NaN` (here None).
   */
  function ParseInt(s: string): (r: Option<int>)
    ensures var body := Unsigned(TrimStart(s)); r.Some? <==> body != [] && IsDigit(body[0])
    ensures r.Some? && r.value < 0 ==> Negative(TrimStart(s))
  {
    var t := TrimStart(s);
    var digits := LeadingDigits(Unsigned(t));
    var value: int := if digits == [] then 0 else DigitsValue(digits);
    if digits == [] then None
    else if Negative(t) then Some(-value)
    else Some(value)
  }

  /** The decimal numeral of `n`, without leading zeros. */
  function Decimal(n: nat): (d: string)
    ensures d != [] && forall k :: 0 <= k < |d| ==> IsDigit(d[k])
  {
    var last := ['0' + (n % 10) as char];
    if n < 10 then last else Decimal(n / 10) + last
  }

  /** Reading a numeral back gives its number. */
  lemma {:induction false} DigitsValueOfDecimal(n: nat)
    ensures DigitsValue(Decimal(n)) == n
  {
    var d := Decimal(n);
    if n >= 10 {
      DigitsValueOfDecimal(n / 10);
      assert d[..|d| - 1] == Decimal(n / 10);
    }
  }

  /** The leading digits of a numeral followed by a non-digit are that numeral. */
  lemma {:induction false} LeadingDigitsOfNumeral(d: string, rest: string)
    requires forall k :: 0 <= k < |d| ==> IsDigit(d[k])
    requires rest == [] || !IsDigit(rest[0])
    ensures LeadingDigits(d + rest) == d
  {
    if d != [] {
      assert (d + rest)[1..] == d[1..] + rest;
      LeadingDigitsOfNumeral(d[1..], rest);
    } else {
      assert d + rest == rest;
    }
  }

  /** No digit is white space. */
  lemma DigitIsNotWhitespace(c: char)
    requires IsDigit(c)
    ensures !IsJsWhitespace(c)
  {
  }

  /** Trimming white space in front of a string that starts with something else leaves that string. */
  lemma {:induction false} TrimStartOfPadded(ws: string, s: string)
    requires forall k :: 0 <= k < |ws| ==> IsJsWhitespace(ws[k])
    requires s == [] || !IsJsWhitespace(s[0])
    ensures TrimStart(ws + s) == s
  {
    if ws != [] {
      assert (ws + s)[1..] == ws[1..] + s;
      TrimStartOfPadded(ws[1..], s);
    } else {
      assert ws + s == s;
    }
  }

  /** `parseInt` reads a run of digits after white space and stops at the first non-digit. */
  lemma ParseIntOfDigits(ws: string, d: string, rest: string)
    requires forall k :: 0 <= k < |ws| ==> IsJsWhitespace(ws[k])
    requires d != [] && forall k :: 0 <= k < |d| ==> IsDigit(d[k])
    requires rest == [] || !IsDigit(rest[0])
    ensures ParseInt(ws + (d + rest)) == Some(DigitsValue(d))
  {
    var s := ws + (d + rest);
    assert (d + rest)[0] == d[0];
    DigitIsNotWhitespace(d[0]);
    TrimStartOfPadded(ws, d + rest);
    UnsignedOfDigit(d + rest);
    LeadingDigitsOfNumeral(d, rest);
    var t := TrimStart(s);
    assert t == d + rest && !Negative(t);
    assert LeadingDigits(Unsigned(t)) == d;
  }

  /** A text starting with a digit has no sign to drop. */
  lemma UnsignedOfDigit(t: string)
    requires t != [] && IsDigit(t[0])
    ensures Unsigned(t) == t
  {
  }

  /** `parseInt` reads a numeral after white space and leading zeros: "3", " 3", "03" and "3abc" all give 3. */
  lemma ParseIntOfNumeral(ws: string, zeros: nat, n: nat, rest: string)
    requires forall k :: 0 <= k < |ws| ==> IsJsWhitespace(ws[k])
    requires rest == [] || !IsDigit(rest[0])
    ensures ParseInt(ws + (seq(zeros, _ => '0') + Decimal(n) + rest)) == Some(n)
  {
    LeadingZeros(zeros, Decimal(n));
    DigitsValueOfDecimal(n);
    ParseIntOfDigits(ws, seq(zeros, _ => '0') + Decimal(n), rest);
  }

  /** Leading zeros do not change a numeral's value. */
  lemma {:induction false} LeadingZeros(zeros: nat, d: string)
    requires forall k :: 0 <= k < |d| ==> IsDigit(d[k])
    ensures var z := seq(zeros, _ => '0') + d;
            (forall k :: 0 <= k < |z| ==> IsDigit(z[k])) && DigitsValue(z) == DigitsValue(d)
    decreases |d|
  {
    var z := seq(zeros, _ => '0') + d;
    assert forall k :: 0 <= k < |z| ==> IsDigit(z[k]);
    if d == [] {
      assert z == seq(zeros, _ => '0');
      AllZeros(zeros);
    } else {
      LeadingZeros(zeros, d[..|d| - 1]);
      assert z[..|z| - 1] == seq(zeros, _ => '0') + d[..|d| - 1];
    }
  }

  /** A string of zeros is worth 0. */
  lemma {:induction false} AllZeros(zeros: nat)
    ensures var z := seq(zeros, _ => '0'); (forall k :: 0 <= k < |z| ==> IsDigit(z[k])) && DigitsValue(z) == 0
  {
    var z := seq(zeros, _ => '0');
    if zeros > 0 {
      AllZeros(zeros - 1);
      assert z[..|z| - 1] == seq(zeros - 1, _ => '0');
    }
  }

  // ----- the status table -----

  /** `statusMapping` (note the upper-case `B` in `challengeByFDS`). */
  const StatusMapping: map<int, string> :=
    map[1 := "pending", 2 := "challengeByFDS", 3 := "completed", 4 := "denied", 5 := "expired", 6 := "cancelled"]

  /** The e-mail a status code calls for: success for 3, failure for 4, 5 and 6. */
  function PayloadForCode(n: int): (r: Option<Payload>)
    ensures r == Some(SuccessTransaction) <==> n == 3
    ensures r == Some(FailTransaction) <==> n in {4, 5, 6}
  {
    if n == 3 then Some(SuccessTransaction)
    else if n in {4, 5, 6} then Some(FailTransaction)
    else None
  }

  /** The numeric rule agrees with the webhook's rule applied to the status the code stands for. */
  lemma CodePayloadAgreesWithWebhook(n: int)
    requires n in StatusMapping
    ensures PayloadForCode(n) == PaymentNotification.PayloadFor(StatusMapping[n])
  {
  }

  /** The table is defined for 1..6 only and writes the webhook's statuses, but one of them spelt differently. */
  lemma StatusTable()
    ensures StatusMapping.Keys == {1, 2, 3, 4, 5, 6}
    ensures StatusMapping.Values ==
              PaymentNotification.WebhookStatuses - {"challengebyFDS"} + {"challengeByFDS"}
    ensures "challengeByFDS" != "challengebyFDS"
  {
  }

  // ----- the handler -----

  /** A path parameter that is there and not empty (JavaScript truthy). */
  predicate Present(v: Option<string>) {
    v.Some? && v.value != ""
  }

  /** `statusMapping[parseInt(status, 10)]` is defined. */
  predicate KnownCode(status: string): (b: bool)
    ensures b <==> ParseInt(status).Some? && 1 <= ParseInt(status).value <= 6
  {
    var n := ParseInt(status);
    StatusCodes(if n.Some? then n.value else 0);
    n.Some? && n.value in StatusMapping
  }

  /** The codes the table knows are 1 to 6. */
  lemma StatusCodes(n: int)
    ensures n in StatusMapping <==> 1 <= n <= 6
  {
  }

  /**
   * The endpoint as a function of the state before it. `isValidId` stands for
   * `mongoose.Types.ObjectId.isValid`.
   */
  function PayingOutcome(s: State, transactionId: Option<string>, status: Option<string>,
                         isValidId: string -> bool, sendOk: bool, logOk: bool): (r: Outcome)
    ensures r.response.code in {BadRequest, NotFound, OK}
    ensures r.response.success <==> r.response.code == OK
    ensures r.response.error.None? <==> r.response.code == OK
    ensures r.response.code != OK ==> r.state == s
    ensures !Present(transactionId) || !Present(status) ==> r.response == Failure(BadRequest, MissingParameter)
    ensures Present(status) && !KnownCode(status.value) ==> r.response.code == BadRequest
    ensures Present(transactionId) && Present(status) && !KnownCode(status.value) ==>
              r.response == Failure(BadRequest, InvalidStatus)
    ensures Present(transactionId) && Present(status) && KnownCode(status.value) &&
            !isValidId(transactionId.value) ==>
              r.response == Failure(BadRequest, InvalidIdFormat)
    ensures r.response.code == NotFound <==>
              Present(transactionId) && Present(status) && KnownCode(status.value) &&
              isValidId(transactionId.value) && transactionId.value !in s.transactions
    ensures r.response.code == NotFound ==> r.response == Failure(NotFound, TransactionNotFound)
    ensures r.response.code == OK <==>
              Present(transactionId) && Present(status) && KnownCode(status.value) &&
              isValidId(transactionId.value) && transactionId.value in s.transactions
    ensures r.response.code == OK ==>
              var id := transactionId.value;
              var written := StatusMapping[ParseInt(status.value).value];
              && r.state.transactions == s.transactions[id := s.transactions[id].(status := written)]
              && r.state.items == s.items
              && r.response.transaction == Some(r.state.transactions[id])
              && r.response.items == ItemsOf(s.items, id)
  {
    if !Present(transactionId) || !Present(status) then Outcome(s, Failure(BadRequest, MissingParameter))
    else
      var n := ParseInt(status.value);
      if n.None? || n.value !in StatusMapping then Outcome(s, Failure(BadRequest, InvalidStatus))
      else if !isValidId(transactionId.value) then Outcome(s, Failure(BadRequest, InvalidIdFormat))
      else
        var id := transactionId.value;
        if id !in s.transactions then Outcome(s, Failure(NotFound, TransactionNotFound))
        else
          var t := s.transactions[id].(status := StatusMapping[n.value]);
          var written := s.(transactions := s.transactions[id := t]);
          var items := ItemsOf(s.items, id);
          var payload := PayloadForCode(n.value);
          var after := if payload.Some? then AfterSendOnce(written, id, payload.value, t, items, sendOk, logOk)
                       else written;
          Outcome(after, Response(OK, true, None, Some(t), items))
  }

  /**
   * The code is validated before the id: with both parameters given, the
   * answer is "invalid status" exactly when the code is unknown, whatever
   * `isValidId` says, and "invalid id format" only when the code is known.
   */
  lemma CodeCheckedBeforeId(s: State, transactionId: Option<string>, status: Option<string>,
                            isValidId: string -> bool, sendOk: bool, logOk: bool)
    requires Present(transactionId) && Present(status)
    ensures var r := PayingOutcome(s, transactionId, status, isValidId, sendOk, logOk).response;
            && (r.error == Some(InvalidStatus) <==> !KnownCode(status.value))
            && (r.error == Some(InvalidIdFormat) <==> KnownCode(status.value) && !isValidId(transactionId.value))
  {
  }

  /** A code above 6 with an id `isValidId` rejects still reports the code, not the id. */
  lemma UnknownCodeWithBadId(s: State, id: string, n: nat, isValidId: string -> bool, sendOk: bool, logOk: bool)
    requires id != "" && !isValidId(id) && n > 6
    ensures PayingOutcome(s, Some(id), Some(Decimal(n)), isValidId, sendOk, logOk).response ==
            Failure(BadRequest, InvalidStatus)
  {
    var d := Decimal(n);
    ParseIntOfNumeral("", 0, n, "");
    assert seq(0, _ => '0') == "";
    assert "" + ("" + d + "") == d;
    assert ParseInt(d) == Some(n);
    assert !KnownCode(d);
  }

  /** A successful override sends the owed e-mail once and logs it, unless the log already has it. */
  lemma PayingEmail(s: State, transactionId: Option<string>, status: Option<string>,
                    isValidId: string -> bool, sendOk: bool, logOk: bool)
    requires PayingOutcome(s, transactionId, status, isValidId, sendOk, logOk).response.code == OK
    ensures var r := PayingOutcome(s, transactionId, status, isValidId, sendOk, logOk).state;
            var id := transactionId.value;
            var t := r.transactions[id];
            var owed := PaymentNotification.PayloadFor(t.status);
            var isNew := owed.Some? && !Logged(s.emailLog, id, owed.value);
            && r.outbox == s.outbox + (if isNew && sendOk then [Email(owed.value, t.customerEmail, id, t, ItemsOf(s.items, id))] else [])
            && r.emailLog == s.emailLog + (if isNew && logOk then [LogRecord(id, t.customerEmail, owed.value)] else [])
  {
    var n := ParseInt(status.value).value;
    CodePayloadAgreesWithWebhook(n);
  }

  /** When every e-mail that goes out is also logged, the override keeps e-mails unique per (id, payload). */
  lemma PayingPreservesAtMostOnce(s: State, transactionId: Option<string>, status: Option<string>,
                                  isValidId: string -> bool, sendOk: bool, logOk: bool)
    requires SentAtMostOnce(s)
    requires sendOk ==> logOk
    ensures SentAtMostOnce(PayingOutcome(s, transactionId, status, isValidId, sendOk, logOk).state)
  {
    var r := PayingOutcome(s, transactionId, status, isValidId, sendOk, logOk);
    if r.response.code == OK {
      var id := transactionId.value;
      var n := ParseInt(status.value).value;
      var t := s.transactions[id].(status := StatusMapping[n]);
      var written := s.(transactions := s.transactions[id := t]);
      assert SentAtMostOnce(written);
      var payload := PayloadForCode(n);
      if payload.Some? {
        SendOncePreservesAtMostOnce(written, id, payload.value, t, ItemsOf(s.items, id), sendOk, logOk);
      }
    }
  }

  /** Repeating an override whose log record was saved changes nothing and answers the same. */
  lemma RepeatedOverrideIsIdempotent(s: State, transactionId: Option<string>, status: Option<string>,
                                     isValidId: string -> bool, sendOk: bool, sendOk': bool, logOk': bool)
    ensures var first := PayingOutcome(s, transactionId, status, isValidId, sendOk, true);
            PayingOutcome(first.state, transactionId, status, isValidId, sendOk', logOk') == first
  {
  }

  /** The override endpoint, updating the stores in place. */
  method Paying(db: Database, transactionId: Option<string>, status: Option<string>,
                isValidId: string -> bool, sendOk: bool, logOk: bool) returns (response: Response)
    modifies db
    ensures Outcome(db.Snapshot(), response) ==
              PayingOutcome(old(db.Snapshot()), transactionId, status, isValidId, sendOk, logOk)
  {
    if transactionId.None? || transactionId.value == "" || status.None? || status.value == "" {
      return Failure(BadRequest, MissingParameter);
    }
    var statusNumber := ParseInt(status.value);
    if statusNumber.None? || statusNumber.value !in StatusMapping {
      return Failure(BadRequest, InvalidStatus);
    }
    var id := transactionId.value;
    if !isValidId(id) {
      return Failure(BadRequest, InvalidIdFormat);
    }
    if id !in db.transactions {
      return Failure(NotFound, TransactionNotFound);
    }
    var t := db.transactions[id].(status := StatusMapping[statusNumber.value]);
    db.transactions := db.transactions[id := t];
    var items := ItemsOf(db.items, id);
    var payload := PayloadForCode(statusNumber.value);
    if payload.Some? {
      db.SendOnce(id, payload.value, t, items, sendOk, logOk);
    }
    response := Response(OK, true, None, Some(t), items);
  }
}
