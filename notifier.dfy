/** The last step of the notification workflow: turns a notice into a Slack attachment,
    or forwards a ready-made one, and publishes it on the Slack topic with the webhook the
    notice names. */
module Notifier {
  import opened Documents
  import opened Constant
  import opened Base
  import opened Store

  const GREEN := "#4caf50"
  const RED := "#d84315"
  const YELLOW := "#ffc107"
  const COMPANY_LABEL := " \n Company: "
  const ACCOUNT_LABEL := "- AccountId: "
  const ACTION_PREFIX := "User Action required for "
  const FENCE := "```"

  /** What reaches the notifier: a notice, with `dump` its `json.dumps`, or a message that
      already carries a `SlackMessage`. */
  datatype Delivery =
    | NoticeIn(notice: Notice, dump: string)
    | SlackIn(slackHandle: Option<string>, message: SlackMessage)

  /** `if x.get(key)`: present and not empty. */
  predicate Given(s: Option<string>)
  {
    s.Some? && s.value != ""
  }

  /** The attachment built from a notice: the title names the error type and the company,
      and the account when the notice has one; an action item turns it into a request to
      the user, coloured yellow, and becomes the text; otherwise an error type colours it
      red and the text is the notice itself, fenced as code. */
  function Attachment(n: Notice, dump: string): (m: SlackMessage)
  {
    var head := " " + n.errorType + COMPANY_LABEL + IdText(n.companyName);
    var title := if Given(n.accountId) then head + (ACCOUNT_LABEL + n.accountId.value) else head;
    var color := if Given(n.actionItem) then YELLOW else if n.errorType != "" then RED else GREEN;
    SlackMessage(color, if Given(n.actionItem) then ACTION_PREFIX + title else title, NOTIFICATION_TITLE,
                 if Given(n.actionItem) then n.actionItem.value else FENCE + dump + FENCE)
  }

  /** `lambda_handler(event)`: what is published on the Slack topic. */
  function Notification(d: Delivery): (p: Publication)
  {
    match d
    case NoticeIn(n, dump) => SlackPost(Attachment(n, dump), if Given(n.slackHandle) then n.slackHandle else None)
    case SlackIn(h, m) => SlackPost(m, if Given(h) then h else None)
  }

  // ---- Properties ----

  /** A ready-made message is posted unchanged. */
  lemma ForwardsSlackMessage(h: Option<string>, m: SlackMessage)
    ensures Notification(SlackIn(h, m)).message == m
  {
  }

  /** The webhook is the delivery's Slack handle exactly when that is given, and there is
      none otherwise. */
  lemma WebhookFromHandle(d: Delivery)
    ensures var h := if d.NoticeIn? then d.notice.slackHandle else d.slackHandle;
      var p := Notification(d);
      (p.webhookUrl.Some? <==> Given(h)) && (p.webhookUrl.Some? ==> p.webhookUrl == h)
  {
  }

  /** Colour priority: an action item beats an error type, which beats the default. */
  lemma ColourPriority(n: Notice, dump: string)
    ensures var c := Attachment(n, dump).color;
      (c == YELLOW <==> Given(n.actionItem))
      && (c == RED <==> !Given(n.actionItem) && n.errorType != "")
      && (c == GREEN <==> !Given(n.actionItem) && n.errorType == "")
  {
    assert YELLOW[1] == 'f' && RED[1] == 'd' && GREEN[1] == '4';
  }

  /** The title asks for a user action exactly when the notice has an action item, and
      ends with the account id exactly when the notice names one. */
  lemma TitleShape(n: Notice, dump: string)
    ensures var a := Attachment(n, dump).author;
      (ACTION_PREFIX <= a <==> Given(n.actionItem))
      && (Given(n.accountId) ==> a[|a| - |n.accountId.value| - |ACCOUNT_LABEL|..] == ACCOUNT_LABEL + n.accountId.value)
      && (!Given(n.accountId) ==> a[|a| - |IdText(n.companyName)|..] == IdText(n.companyName))
  {
    var head := " " + n.errorType + COMPANY_LABEL + IdText(n.companyName);
    assert head[0] == ' ';
    assert ACTION_PREFIX[0] == 'U';
  }

  /** The text is the action item when there is one, and the fenced notice otherwise. */
  lemma TextChoice(n: Notice, dump: string)
    ensures var t := Attachment(n, dump).text;
      (Given(n.actionItem) ==> t == n.actionItem.value)
      && (!Given(n.actionItem) ==> t == FENCE + dump + FENCE)
  {
  }

  // ---- The step ----

  /** `lambda_handler(event)`, building the attachment field by field. */
  method Notify(b: Backend, d: Delivery)
    modifies b`published
    ensures b.published == old(b.published) + [Notification(d)]
  {
    var message: SlackMessage;
    var handle: Option<string>;
    match d {
      case NoticeIn(n, dump) =>
        var title := " " + n.errorType + COMPANY_LABEL + IdText(n.companyName);
        var color := GREEN;
        if n.accountId.Some? && n.accountId.value != "" {
          title := title + (ACCOUNT_LABEL + n.accountId.value);
        }
        if n.errorType != "" {
          color := RED;
        }
        if n.actionItem.Some? && n.actionItem.value != "" {
          title := ACTION_PREFIX + title;
          color := YELLOW;
        }
        var text := if n.actionItem.Some? && n.actionItem.value != "" then n.actionItem.value else FENCE + dump + FENCE;
        message := SlackMessage(color, title, NOTIFICATION_TITLE, text);
        handle := n.slackHandle;
      case SlackIn(h, m) =>
        message := m;
        handle := h;
    }
    var webhook: Option<string> := None;
    if handle.Some? && handle.value != "" {
      webhook := handle;
    }
    b.Publish([SlackPost(message, webhook)]);
  }
}
