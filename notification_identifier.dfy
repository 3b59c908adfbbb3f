/** The first step of the notification workflow: names the handler an error notice is
    routed to, from its error code. */
module NotificationIdentifier {
  import opened Documents
  import opened Base

  const CONSTRAINT_VIOLATION := "ConstraintViolationException"
  const HANDSHAKE_CONSTRAINT_VIOLATION := "HandshakeConstraintViolationException"
  const DUPLICATE_ACCOUNT := "DuplicateAccountException"

  /** The handler names, as the table writes them: Python call expressions. */
  const CONSTRAINT_HANDLER := "constraint_violation_exception_handler(error)"
  const HANDSHAKE_HANDLER := "handshake_constraint_violation_exception_handler(error)"
  const DUPLICATE_HANDLER := "duplicate_account_exception_handler(error)"
  const NOTIFY := "Notify"

  /** The error-code to handler table. */
  function ErrorHandlers(): (m: map<string, string>)
  {
    map[CONSTRAINT_VIOLATION := CONSTRAINT_HANDLER,
        HANDSHAKE_CONSTRAINT_VIOLATION := HANDSHAKE_HANDLER,
        DUPLICATE_ACCOUNT := DUPLICATE_HANDLER]
  }

  /** `identify_error(error_msg)`: the table's handler for the notice's `ErrorCode`, and
      "Notify" for any other code or none. */
  function IdentifyError(n: Notice): (h: string)
  {
    if n.errorCode.Some? && n.errorCode.value in ErrorHandlers() then ErrorHandlers()[n.errorCode.value] else NOTIFY
  }

  /** `lambda_handler(event)`: the notice with its `handler` key set. */
  function Identify(n: Notice): (r: Notice)
  {
    n.(handler := Some(IdentifyError(n)))
  }

  // ---- Properties ----

  /** The three constraint codes get their own handler; every other code, and a missing
      one, gets "Notify"; the four answers are distinct. */
  lemma HandlerTable(n: Notice)
    ensures n.errorCode == Some(CONSTRAINT_VIOLATION) <==> IdentifyError(n) == CONSTRAINT_HANDLER
    ensures n.errorCode == Some(HANDSHAKE_CONSTRAINT_VIOLATION) <==> IdentifyError(n) == HANDSHAKE_HANDLER
    ensures n.errorCode == Some(DUPLICATE_ACCOUNT) <==> IdentifyError(n) == DUPLICATE_HANDLER
    ensures IdentifyError(n) == NOTIFY <==>
      n.errorCode.None? || n.errorCode.value !in {CONSTRAINT_VIOLATION, HANDSHAKE_CONSTRAINT_VIOLATION, DUPLICATE_ACCOUNT}
  {
    assert |CONSTRAINT_HANDLER| == 45 && |HANDSHAKE_HANDLER| == 55 && |DUPLICATE_HANDLER| == 42 && |NOTIFY| == 6;
    assert |CONSTRAINT_VIOLATION| == 28 && |HANDSHAKE_CONSTRAINT_VIOLATION| == 37 && |DUPLICATE_ACCOUNT| == 25;
  }

  /** The step adds the `handler` key and changes nothing else. */
  lemma OnlyHandlerAdded(n: Notice)
    ensures var r := Identify(n);
      r.handler.Some? && r.handler.value in {CONSTRAINT_HANDLER, HANDSHAKE_HANDLER, DUPLICATE_HANDLER, NOTIFY}
      && r.(handler := n.handler) == n
  {
  }
}
