/** `log_error`: the text a step stores in a record's `Error` column and the notice it
    publishes. */
module MeLogger {
  import opened Documents
  import opened Constant
  import opened Base

  /** `str(error)`. The text of a ClientError names the failed operation, which the model
      leaves out. */
  const CLIENT_ERROR_HEAD := "An error occurred ("
  const CLIENT_ERROR_MIDDLE := ") when calling the operation: "
  const INDEX_ERROR_TEXT := "list index out of range"
  const TIMEOUT_TEXT := "Task timed out"

  function ExcText(e: Option<Exc>): string {
    match e
    case None => "None"
    case Some(ClientErr(code, message)) => CLIENT_ERROR_HEAD + code + CLIENT_ERROR_MIDDLE + message
    case Some(Failure(m)) => m
    case Some(IndexErr) => INDEX_ERROR_TEXT
    case Some(KeyErr(k)) => "'" + k + "'"
    case Some(ValueErr(m)) => m
    case Some(AttrErr(m)) => m
    case Some(TypeErr(m)) => m
    case Some(Timeout) => TIMEOUT_TEXT
  }

  datatype Logged = Logged(text: string, published: seq<Publication>)

  /** `log_error(...)`: the returned text is `msg` when it is non-empty and `str(error)`
      otherwise; the notice carries an error code and message only for a ClientError,
      and it is published exactly when `notify` holds. */
  function LogError(accountId: Option<string>, companyName: Option<string>, errorType: string,
                    msg: string, error: Option<Exc>, notify: bool, slackHandle: Option<string>): (r: Logged)
    ensures msg != "" ==> r.text == msg
    ensures msg == "" ==> r.text == ExcText(error)
    ensures |r.published| == (if notify then 1 else 0)
    ensures notify ==> r.published[0].ErrorNotice?
    ensures notify ==> (
      var n := r.published[0].notice;
      n.message == r.text && n.accountId == accountId && n.companyName == companyName
      && n.errorType == errorType && n.slackHandle == slackHandle && n.title == NOTIFICATION_TITLE
      && (n.errorCode.Some? <==> error.Some? && error.value.ClientErr?)
      && (n.errorCode.Some? ==> n.errorCode.value == error.value.code && n.errorMessage == Some(error.value.message))
      && (n.errorCode.None? ==> n.errorMessage.None?)
      && n.handler.None? && n.status.None? && n.actionItem.None?)
  {
    var text := if msg != "" then msg else ExcText(error);
    var isClient := error.Some? && error.value.ClientErr?;
    var notice := Notice(NOTIFICATION_TITLE, accountId, companyName, errorType, text,
                         if isClient then Some(error.value.code) else None,
                         if isClient then Some(error.value.message) else None,
                         slackHandle, None, None, None);
    Logged(text, if notify then [ErrorNotice(notice)] else [])
  }

  /** The notice a step's generic `except Exception` clause publishes: tied to the event's
      account, with no message of its own and no Slack handle. */
  function EventLog(errorType: string, ev: StepInput, e: Exc): (r: Logged)
    ensures r.text == ExcText(Some(e)) && |r.published| == 1
  {
    LogError(Some(ev.accountId), Some(ev.companyName), errorType, "", Some(e), true, None)
  }

  /** A ClientError, or a non-empty message, always yields a non-empty text, so the
      `Error` column it is stored in is never emptied by the empty-value conversion. */
  lemma LoggedTextNonEmpty(accountId: Option<string>, companyName: Option<string>, errorType: string,
                           msg: string, error: Option<Exc>, notify: bool, slackHandle: Option<string>)
    requires msg != "" || (error.Some? && error.value.ClientErr?) || error.None?
    ensures LogError(accountId, companyName, errorType, msg, error, notify, slackHandle).text != ""
  {
    if msg == "" && error.Some? {
      var e := error.value;
      assert ExcText(error) == CLIENT_ERROR_HEAD + e.code + CLIENT_ERROR_MIDDLE + e.message;
      assert ExcText(error)[0] == 'A';
    }
  }
}
