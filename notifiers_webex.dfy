/**
  The legacy alerting Webex notifier (pkg/services/alerting/notifiers/webex.go):
  the constructor's settings validation, the rule-state glyph, the message
  layout and the webhook request `Notify` posts.

  `GetNotificationTitle()` is the `notificationTitle` field of the evaluation
  context, and the notification service's `SendWebhookSync` is the `send`
  parameter of `Notify`.
 */
module Notifiers {
  import opened Results
  import opened Webhook

  /** The stored notification the constructor is given. */
  datatype AlertNotification = AlertNotification(name: string, notificationType: string, settings: Settings)

  /** Error returned for an incomplete configuration. */
  datatype ValidationError = ValidationError(reason: string)

  /** A constructed notifier: the base's name and type, and the two settings. */
  datatype WebexNotifier = WebexNotifier(name: string, notifierType: string, webhookURL: string, content: string)

  /** The state of an alert rule. */
  datatype AlertState = NoData | Paused | Alerting | OK | Pending | Unknown

  /** The part of the alert rule `Notify` reads. */
  datatype Rule = Rule(name: string, message: string, state: AlertState)

  /** The evaluation context of one notification. */
  datatype EvalContext = EvalContext(rule: Rule, notificationTitle: string)

  const MissingWebhookURL := "Could not find webhook_url property in settings"

  /**
    `NewWebexNotifier`: `webhook_url` is required; `content` is optional and
    defaults to the empty string.
   */
  function NewWebexNotifier(model: AlertNotification): (r: Result<WebexNotifier, ValidationError>)
    ensures r.Failure? <==> !HasString(model.settings, "webhook_url") || model.settings["webhook_url"].s == ""
    ensures r.Failure? ==> r.error == ValidationError(MissingWebhookURL)
    ensures r.Success? ==>
      && r.value.name == model.name
      && r.value.notifierType == model.notificationType
      && r.value.webhookURL == model.settings["webhook_url"].s
      && r.value.content == if HasString(model.settings, "content") then model.settings["content"].s else ""
  {
    var webhookURL := MustString(model.settings, "webhook_url", "");
    if webhookURL == "" then
      Failure(ValidationError(MissingWebhookURL))
    else
      Success(WebexNotifier(model.name, model.notificationType, webhookURL, MustString(model.settings, "content", "")))
  }

  /**
    The glyph for a rule state: one per state among ok, no data and alerting,
    nothing for every other state.
   */
  function StateEmoji(state: AlertState): (e: string)
    ensures e == CheckMark <==> state.OK?
    ensures e == QuestionMark <==> state.NoData?
    ensures e == WarningSign <==> state.Alerting?
    ensures e == "" <==> !(state.OK? || state.NoData? || state.Alerting?)
  {
    match state
    case OK => CheckMark
    case NoData => QuestionMark
    case Alerting => WarningSign
    case _ => ""
  }

  /** Reads the rule state back from the glyph a message starts with. */
  function StateOf(message: string): Option<AlertState>
  {
    if |CheckMark| <= |message| && message[..|CheckMark|] == CheckMark then Some(OK)
    else if |QuestionMark| <= |message| && message[..|QuestionMark|] == QuestionMark then Some(NoData)
    else if |WarningSign| <= |message| && message[..|WarningSign|] == WarningSign then Some(Alerting)
    else None
  }

  /** The label in front of the rule's name. */
  const StateLabel := "\n\n*State:* "

  /** The label in front of the rule's message. */
  const MessageLabel := "\n*Message:* "

  /**
    The markdown message: glyph and title, the `*State:*` label and the rule's
    name, then the `*Message:*` label, the rule's message and a newline.
   */
  function Message(ctx: EvalContext): (m: string)
    ensures var head := StateEmoji(ctx.rule.state) + ctx.notificationTitle;
      var name, text := ctx.rule.name, ctx.rule.message;
      && |m| == |head| + |StateLabel| + |name| + |MessageLabel| + |text| + 1
      && m[..|head|] == head
      && m[|head|..|head| + |StateLabel|] == StateLabel
      && m[|head| + |StateLabel|..|head| + |StateLabel| + |name|] == name
      && m[|head| + |StateLabel| + |name|..|m| - |text| - 1] == MessageLabel
      && m[|m| - |text| - 1..|m| - 1] == text
      && m[|m| - 1] == '\n'
  {
    StateEmoji(ctx.rule.state) + ctx.notificationTitle + StateLabel + ctx.rule.name + MessageLabel + ctx.rule.message + "\n"
  }

  /**
    The JSON body: `markdown` holds the message, and is set only when the
    `content` setting is non-empty; the setting's value itself is not used.
   */
  function Body(n: WebexNotifier, message: string): (b: map<string, string>)
    ensures "markdown" in b <==> n.content != ""
    ensures b.Keys <= {"markdown"}
    ensures "markdown" in b ==> b["markdown"] == message
  {
    if n.content != "" then map["markdown" := message] else map[]
  }

  /** The webhook command `Notify` hands to the notification service. */
  function Request(n: WebexNotifier, ctx: EvalContext): (req: WebhookRequest)
    ensures req.url == n.webhookURL
    ensures req.httpMethod == MethodPost && req.contentType == ContentType && req.httpHeader == map[]
    ensures req.body == if n.content == "" then map[] else map["markdown" := Message(ctx)]
  {
    WebhookRequest(n.webhookURL, Body(n, Message(ctx)), MethodPost, ContentType, map[])
  }

  /**
    `Notify`: hands exactly one command, `Request(n, ctx)`, to the notification service and
    returns its error unchanged (`None` when delivery succeeds).
   */
  method Notify(n: WebexNotifier, ctx: EvalContext, sender: WebhookSender) returns (err: Option<Error>)
    modifies sender
    ensures sender.sent == old(sender.sent) + [Request(n, ctx)]
    ensures err == sender.respond(Request(n, ctx))
  {
    err := sender.SendWebhookSync(Request(n, ctx));
  }

  /** A message that starts with a glyph gives the rule state back. */
  lemma StateOfStateEmoji(state: AlertState, rest: string)
    requires state.OK? || state.NoData? || state.Alerting?
    ensures StateOf(StateEmoji(state) + rest) == Some(state)
  {
    var m := StateEmoji(state) + rest;
    match state
    case OK =>
      assert m[..|CheckMark|] == CheckMark;
    case NoData =>
      assert m[0] == '\U{2753}' != CheckMark[0];
      assert m[..|QuestionMark|] == QuestionMark;
    case Alerting =>
      assert m[0] == '\U{26A0}' != CheckMark[0];
      assert m[0] != QuestionMark[0];
      assert m[..|WarningSign|] == WarningSign;
  }

  /**
    For ok, no-data and alerting rules the posted message reveals the state
    through its first glyph.
   */
  lemma MessageRevealsState(ctx: EvalContext)
    requires ctx.rule.state.OK? || ctx.rule.state.NoData? || ctx.rule.state.Alerting?
    ensures StateOf(Message(ctx)) == Some(ctx.rule.state)
  {
    var m := Message(ctx);
    var e := StateEmoji(ctx.rule.state);
    assert m == e + m[|e|..];
    StateOfStateEmoji(ctx.rule.state, m[|e|..]);
  }

  /**
    The request depends on `content` only through whether it is empty: two
    notifiers that agree on the URL and on that are indistinguishable on the wire.
   */
  lemma RequestIgnoresContentValue(n1: WebexNotifier, n2: WebexNotifier, ctx: EvalContext)
    requires n1.webhookURL == n2.webhookURL
    requires (n1.content == "") == (n2.content == "")
    ensures Request(n1, ctx) == Request(n2, ctx)
  {
  }

  /** Empty settings are refused. */
  lemma EmptySettingsRejected(model: AlertNotification)
    requires model.settings == map[]
    ensures NewWebexNotifier(model) == Failure(ValidationError(MissingWebhookURL))
  {
  }

  /** A notification with a webhook URL yields a notifier with that URL and the model's name and type. */
  lemma WebhookSettingsAccepted()
    ensures var url := "https://webexapis.com/v1/webhooks/incoming/room-id";
      var r := NewWebexNotifier(AlertNotification("ops", "webex", map["webhook_url" := JString(url)]));
      && r.Success?
      && r.value.name == "ops"
      && r.value.notifierType == "webex"
      && r.value.webhookURL == url
  {
  }

  /**
    A notifier configured without `content` posts an empty JSON object: the
    message never reaches the webhook.
   */
  lemma WithoutContentBodyIsEmpty(model: AlertNotification, ctx: EvalContext)
    requires NewWebexNotifier(model).Success?
    requires "content" !in model.settings
    ensures Request(NewWebexNotifier(model).value, ctx).body == map[]
  {
  }
}
