/** The second step of the notification workflow: runs the handler the identifier named.
    A handler can mark the notice Handled (it is then not sent to Slack), attach an action
    item for the account owner, or repair the account's record in the table. */
module NotificationHandler {
  import opened Documents
  import opened Strings
  import opened Constant
  import opened Base
  import opened MeLogger
  import opened Store
  import opened NotificationIdentifier

  const UNHANDLED := "Unhandled"
  const HANDLED := "Handled"
  const PAYMENT_METHOD := "valid payment method"
  const PHONE_PIN := "completed phone pin verification"
  const AGREEMENT := "signed the Customer Agreement"
  const PIN_ACTION := "Account owner need to preform required action manually. To complete phone pin verification someone logged in as the root user must visit this URL: https://portal.aws.amazon.com/gp/aws/developer/registration/index.html?client=organizations&enforcePI=True"
  const AGREEMENT_ACTION := "Account owner need to preform required action manually. To accept the agreement someone logged in as the root user must visit this URL: https://portal.aws.amazon.com/billing/signup?type=resubscribe#/resubscribed"
  /** The start of the message of the ValueError `ast.literal_eval` raises on a call
      expression (the rest names the node's address). */
  const MALFORMED := "malformed node or string"
  const NONE_HAS_NO_RFIND := "'NoneType' object has no attribute 'rfind'"
  /** The table resource serialises a key value of None as a NULL attribute, which
      DynamoDB refuses with a ValidationException. */
  const VALIDATION_EXCEPTION := "ValidationException"
  const NULL_KEY_MESSAGE := "One or more parameter values were invalid: Condition parameter type does not match schema type"

  /** The answer of the table calls: a null key is refused by the service, whatever
      `db` would have answered for a real key. */
  function TableAnswer(n: Notice, db: Aws<()>): (a: Aws<()>)
    ensures n.accountId.None? || n.companyName.None? ==> a == ClientError(VALIDATION_EXCEPTION, NULL_KEY_MESSAGE)
    ensures n.accountId.Some? && n.companyName.Some? ==> a == db
  {
    if n.accountId.None? || n.companyName.None? then ClientError(VALIDATION_EXCEPTION, NULL_KEY_MESSAGE) else db
  }

  /** `if error.get('SlackHandle'): del error['SlackHandle']`. */
  function DropSlackHandle(n: Notice): (r: Notice)
  {
    if n.slackHandle.Some? && n.slackHandle.value != "" then n.(slackHandle := None) else n
  }

  /** `constraint_violation_exception_handler(error)`. `rfind(x) >= 0` is `x in message`. A
      payment-method message stays Unhandled without its Slack handle; a phone-pin and then
      an agreement message each attach their action item and mark the notice Handled, so the
      agreement's wins when both occur; any other message is returned as it came. */
  function ConstraintHandling(n: Notice): (r: StepResult<Notice>)
  {
    if n.errorMessage.None? then Raised(AttrErr(NONE_HAS_NO_RFIND))
    else
      var m := n.errorMessage.value;
      if Contains(m, PAYMENT_METHOD) then Returned(DropSlackHandle(n).(status := Some(UNHANDLED)))
      else
        var n1 := if Contains(m, PHONE_PIN) then n.(actionItem := Some(PIN_ACTION), status := Some(HANDLED)) else n;
        Returned(if Contains(m, AGREEMENT) then n1.(actionItem := Some(AGREEMENT_ACTION), status := Some(HANDLED)) else n1)
  }

  /** The try block and handlers the two repairing handlers share: the record of the
      notice's account gets `AccountStatus := newStatus` and is written, and the step
      returns `onSuccess`; `db` is the answer of the table calls. A ClientError, a null key
      included, is logged as "code: message" and the step returns `onError`; any other
      exception, a missing record (`[0]` of an empty answer) included, is logged and
      re-raised. */
  function StatusRepair(items: map<Key, Record>, n: Notice, newStatus: int, onSuccess: Notice, onError: Notice,
                        db: Aws<()>): (o: Outcome<Notice>)
  {
    var a := TableAnswer(n, db);
    if a.ClientError? then
      var e := ClientErr(a.code, a.message);
      Outcome(Returned(onError), [],
              LogError(n.accountId, n.companyName, NHE, a.code + ": " + a.message, Some(e), true, None).published, [])
    else if a.OtherError? then
      var e := Failure(a.msg);
      Outcome(Raised(e), [], LogError(n.accountId, n.companyName, NHE, "", Some(e), true, None).published, [])
    else if (n.companyName.value, n.accountId.value) !in items then
      Outcome(Raised(IndexErr), [], LogError(n.accountId, n.companyName, NHE, "", Some(IndexErr), true, None).published, [])
    else
      Outcome(Returned(onSuccess), [items[(n.companyName.value, n.accountId.value)].(accountStatus := newStatus)], [], [])
  }

  /** `handshake_constraint_violation_exception_handler(error)`: the account is JOINED
      after all; the notice is Handled only when the record was written. */
  function HandshakeHandling(items: map<Key, Record>, n: Notice, db: Aws<()>): (o: Outcome<Notice>)
  {
    var e := DropSlackHandle(n);
    StatusRepair(items, n, JOINED, e.(status := Some(HANDLED)), e, db)
  }

  /** `duplicate_account_exception_handler(error)`: the account is UPDATED after all; the
      notice is marked Handled before the table is touched. */
  function DuplicateHandling(items: map<Key, Record>, n: Notice, db: Aws<()>): (o: Outcome<Notice>)
  {
    var e := DropSlackHandle(n.(status := Some(HANDLED)));
    StatusRepair(items, n, UPDATED, e, e, db)
  }

  /** `error_handle(error)` as written: every handler other than "Notify" goes to
      `ast.literal_eval`, which refuses a call expression. */
  function ErrorHandleAsWritten(n: Notice): (r: StepResult<Notice>)
  {
    if n.handler.None? then Raised(KeyErr("handler"))
    else if n.handler.value == NOTIFY then Returned(n.(status := Some(UNHANDLED)))
    else Raised(ValueErr(MALFORMED))
  }

  /** `error_handle(error)` with the handler named by the identifier called, as evidently
      intended: "Notify" leaves the notice Unhandled. */
  function ErrorHandle(items: map<Key, Record>, n: Notice, db: Aws<()>): (o: Outcome<Notice>)
  {
    if n.handler.None? then Outcome(Raised(KeyErr("handler")), [], [], [])
    else if n.handler.value == NOTIFY then Outcome(Returned(n.(status := Some(UNHANDLED))), [], [], [])
    else if n.handler.value == CONSTRAINT_HANDLER then Outcome(ConstraintHandling(n), [], [], [])
    else if n.handler.value == HANDSHAKE_HANDLER then HandshakeHandling(items, n, db)
    else if n.handler.value == DUPLICATE_HANDLER then DuplicateHandling(items, n, db)
    else Outcome(Raised(ValueErr(MALFORMED)), [], [], [])
  }

  // ---- Properties ----

  /** As written, each of the three handlers the identifier can name makes the step raise
      ValueError, so no notice is ever handled; with the dispatch intended, none of them
      does. */
  lemma HandlersNeverRunAsWritten(items: map<Key, Record>, n: Notice, db: Aws<()>)
    requires n.handler.Some? && n.handler.value in {CONSTRAINT_HANDLER, HANDSHAKE_HANDLER, DUPLICATE_HANDLER}
    ensures ErrorHandleAsWritten(n) == Raised(ValueErr(MALFORMED))
    ensures ErrorHandle(items, n, db).result != Raised(ValueErr(MALFORMED))
  {
    assert |NOTIFY| == 6 && |CONSTRAINT_HANDLER| == 45 && |HANDSHAKE_HANDLER| == 55 && |DUPLICATE_HANDLER| == 42;
  }

  /** The two dispatches agree on "Notify": the notice is marked Unhandled, nothing else
      changes and nothing is written. */
  lemma NotifyUnhandled(items: map<Key, Record>, n: Notice, db: Aws<()>)
    requires n.handler == Some(NOTIFY)
    ensures ErrorHandle(items, n, db) == Outcome(ErrorHandleAsWritten(n), [], [], [])
    ensures ErrorHandleAsWritten(n) == Returned(n.(status := Some(UNHANDLED)))
  {
  }

  /** A notice the identifier routed from a ConstraintViolationException reaches the
      constraint handler. */
  lemma ConstraintRouted(items: map<Key, Record>, n: Notice, db: Aws<()>)
    requires n.errorCode == Some(CONSTRAINT_VIOLATION)
    ensures ErrorHandle(items, Identify(n), db) == Outcome(ConstraintHandling(Identify(n)), [], [], [])
  {
    HandlerTable(n);
    assert |NOTIFY| == 6 && |CONSTRAINT_HANDLER| == 45;
  }

  /** A payment-method message is returned at once, Unhandled, without its Slack handle
      and without an action item of its own. */
  lemma PaymentMethodUnhandled(n: Notice)
    requires n.errorMessage.Some? && Contains(n.errorMessage.value, PAYMENT_METHOD)
    ensures var r := ConstraintHandling(n);
      r.Returned? && r.value.status == Some(UNHANDLED) && r.value.actionItem == n.actionItem
      && (r.value.slackHandle.None? || r.value.slackHandle == Some(""))
      && r.value.(status := n.status, slackHandle := n.slackHandle) == n
  {
  }

  /** The action item and status the constraint handler sets, case by case: the agreement
      check runs last and wins; a message matching none of the three is returned with its
      status as it came. */
  lemma ConstraintActions(n: Notice)
    requires n.errorMessage.Some? && !Contains(n.errorMessage.value, PAYMENT_METHOD)
    ensures var m := n.errorMessage.value;
      var r := ConstraintHandling(n);
      r.Returned? && r.value.slackHandle == n.slackHandle
      && (Contains(m, AGREEMENT) ==> r.value.actionItem == Some(AGREEMENT_ACTION) && r.value.status == Some(HANDLED))
      && (Contains(m, PHONE_PIN) && !Contains(m, AGREEMENT) ==>
            r.value.actionItem == Some(PIN_ACTION) && r.value.status == Some(HANDLED))
      && (!Contains(m, PHONE_PIN) && !Contains(m, AGREEMENT) ==> r.value == n)
  {
  }

  /** With the record present and the table answering, the handshake handler writes the
      record back JOINED, with every other column as read, and marks the notice Handled. */
  lemma HandshakeJoins(items: map<Key, Record>, n: Notice, db: Aws<()>)
    requires n.accountId.Some? && n.companyName.Some? && db.Ok?
    requires (n.companyName.value, n.accountId.value) in items
    ensures var rec := items[(n.companyName.value, n.accountId.value)];
      var o := HandshakeHandling(items, n, db);
      o.writes == [rec.(accountStatus := JOINED)] && o.published == []
      && o.result == Returned(DropSlackHandle(n).(status := Some(HANDLED)))
  {
  }

  /** A ClientError of the table leaves the handshake notice's status as it came, writes
      nothing and is notified once as "code: message". */
  lemma TableClientError(items: map<Key, Record>, n: Notice, code: string, message: string)
    requires n.accountId.Some? && n.companyName.Some?
    ensures var o := HandshakeHandling(items, n, ClientError(code, message));
      o.result == Returned(DropSlackHandle(n)) && o.writes == []
      && |o.published| == 1 && o.published[0].notice.message == code + ": " + message
      && o.published[0].notice.errorType == NHE
  {
  }

  /** A notice without an account id or company name still reaches the table: the
      service refuses the null key with a ValidationException, which is logged as
      "code: message". The handshake handler returns the notice with its status as it came, the
      duplicate handler returns it Handled, and nothing is written. */
  lemma NullKeyRefusedByTable(items: map<Key, Record>, n: Notice, db: Aws<()>)
    requires n.accountId.None? || n.companyName.None?
    ensures var o := HandshakeHandling(items, n, db);
      o.result == Returned(DropSlackHandle(n)) && o.writes == []
      && |o.published| == 1 && o.published[0].notice.message == VALIDATION_EXCEPTION + ": " + NULL_KEY_MESSAGE
      && o.published[0].notice.errorCode == Some(VALIDATION_EXCEPTION)
    ensures var o := DuplicateHandling(items, n, db);
      o.result.Returned? && o.result.value.status == Some(HANDLED) && o.writes == []
      && |o.published| == 1 && o.published[0].notice.errorCode == Some(VALIDATION_EXCEPTION)
  {
    assert |VALIDATION_EXCEPTION + ": " + NULL_KEY_MESSAGE| > 0 by { assert VALIDATION_EXCEPTION[0] == 'V'; }
  }


  /** The duplicate notice is Handled whenever the handler returns, a ClientError of the
      table included; the only record it can write is the notice's own, set to UPDATED. */
  lemma DuplicateAlwaysHandled(items: map<Key, Record>, n: Notice, db: Aws<()>)
    ensures var o := DuplicateHandling(items, n, db);
      (o.result.Returned? ==> o.result.value.status == Some(HANDLED))
      && (db.ClientError? && n.accountId.Some? && n.companyName.Some? ==> o.result.Returned? && o.writes == [])
      && (o.writes != [] ==>
            n.accountId.Some? && n.companyName.Some? && (n.companyName.value, n.accountId.value) in items
            && o.writes == [items[(n.companyName.value, n.accountId.value)].(accountStatus := UPDATED)])
  {
  }

  /** Neither repairing handler compares the status it writes with the record's: a LEFT
      record is set back to JOINED, or to UPDATED. */
  lemma RepairsCanLowerStatus(items: map<Key, Record>, n: Notice, db: Aws<()>)
    requires n.accountId.Some? && n.companyName.Some? && db.Ok?
    requires var k := (n.companyName.value, n.accountId.value); k in items && items[k].accountStatus == LEFT
    ensures var k := (n.companyName.value, n.accountId.value);
      HandshakeHandling(items, n, db).writes[0].accountStatus < items[k].accountStatus
      && DuplicateHandling(items, n, db).writes[0].accountStatus < items[k].accountStatus
  {
    StatusCodesIncrease();
  }

  // ---- The step ----

  /** The constraint handler, updating the notice in place. */
  method ConstraintHandler(n: Notice) returns (r: StepResult<Notice>)
    ensures r == ConstraintHandling(n)
  {
    var error := n;
    if error.errorMessage.None? {
      return Raised(AttrErr(NONE_HAS_NO_RFIND));
    }
    var m := error.errorMessage.value;
    if Contains(m, PAYMENT_METHOD) {
      if error.slackHandle.Some? && error.slackHandle.value != "" {
        error := error.(slackHandle := None);
      }
      error := error.(status := Some(UNHANDLED));
      return Returned(error);
    }
    if Contains(m, PHONE_PIN) {
      error := error.(actionItem := Some(PIN_ACTION));
      error := error.(status := Some(HANDLED));
    }
    if Contains(m, AGREEMENT) {
      error := error.(actionItem := Some(AGREEMENT_ACTION));
      error := error.(status := Some(HANDLED));
    }
    r := Returned(error);
  }

  /** The shared try block of the repairing handlers, against the table. */
  method StatusRepairRun(b: Backend, n: Notice, newStatus: int, onSuccess: Notice, onError: Notice, db: Aws<()>,
                         now: int)
    returns (r: StepResult<Notice>)
    modifies b`items, b`published
    ensures var o := StatusRepair(old(b.items), n, newStatus, onSuccess, onError, db);
      r == o.result && b.items == ApplyWrites(old(b.items), o.writes, now) && b.published == old(b.published) + o.published
  {
    var e: Exc;
    var a := TableAnswer(n, db);
    if a.ClientError? {
      var ce := ClientErr(a.code, a.message);
      b.Publish(LogError(n.accountId, n.companyName, NHE, a.code + ": " + a.message, Some(ce), true, None).published);
      return Returned(onError);
    } else if a.OtherError? {
      e := Failure(a.msg);
    } else {
      var found := AccountById(b.items, n.companyName.value, n.accountId.value);
      if found.Some? {
        var account := found.value.(accountStatus := newStatus);
        b.Put(account, now);
        return Returned(onSuccess);
      }
      e := IndexErr;
    }
    b.Publish(LogError(n.accountId, n.companyName, NHE, "", Some(e), true, None).published);
    r := Raised(e);
  }

  /** `lambda_handler(event)`, dispatching as intended. */
  method HandleNotification(b: Backend, n: Notice, db: Aws<()>, now: int) returns (r: StepResult<Notice>)
    modifies b`items, b`published
    ensures var o := ErrorHandle(old(b.items), n, db);
      r == o.result && b.items == ApplyWrites(old(b.items), o.writes, now) && b.published == old(b.published) + o.published
  {
    if n.handler.None? {
      return Raised(KeyErr("handler"));
    }
    var h := n.handler.value;
    if h == NOTIFY {
      r := Returned(n.(status := Some(UNHANDLED)));
    } else if h == CONSTRAINT_HANDLER {
      r := ConstraintHandler(n);
    } else if h == HANDSHAKE_HANDLER {
      var e := DropSlackHandle(n);
      r := StatusRepairRun(b, n, JOINED, e.(status := Some(HANDLED)), e, db, now);
    } else if h == DUPLICATE_HANDLER {
      var e := DropSlackHandle(n.(status := Some(HANDLED)));
      r := StatusRepairRun(b, n, UPDATED, e, e, db, now);
    } else {
      r := Raised(ValueErr(MALFORMED));
    }
  }
}
