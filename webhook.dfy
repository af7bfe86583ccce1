/**
  What both Webex notifiers share: the JSON settings blob they read with
  `Get(key).MustString(...)`, and the webhook command they hand to the
  notification service.
 */
module Webhook {
  import opened Results

  /** A Go `error`, represented by its text. */
  type Error = string

  /** A JSON value as stored in a notification channel's settings. */
  datatype JsonValue =
    | JNull
    | JBool(b: bool)
    | JNumber(n: real)
    | JString(s: string)
    | JArray(items: seq<JsonValue>)
    | JObject(fields: map<string, JsonValue>)

  /** The settings object of a channel: a JSON object. */
  type Settings = map<string, JsonValue>

  /** True when `key` is present and holds a JSON string. */
  predicate HasString(settings: Settings, key: string)
  {
    key in settings && settings[key].JString?
  }

  /**
    `settings.Get(key).MustString(default)`: the string stored under `key`, or
    `default` when the key is missing or holds anything but a string.
   */
  function MustString(settings: Settings, key: string, default: string): (s: string)
    ensures key in settings && settings[key].JString? ==> settings[key] == JString(s)
    ensures key !in settings || !settings[key].JString? ==> s == default
  {
    if HasString(settings, key) then settings[key].s else default
  }

  /** Check mark button, then a space. */
  const CheckMark := "\U{2705} "

  /** Question mark ornament with emoji presentation selector, then a space. */
  const QuestionMark := "\U{2753}\U{FE0F} "

  /** Warning sign with emoji presentation selector, then a space. */
  const WarningSign := "\U{26A0}\U{FE0F} "

  /** Content type every Webex request is sent with. */
  const ContentType := "application/json; charset=utf-8"

  /** HTTP method every Webex request is sent with. */
  const MethodPost := "POST"

  /**
    The `SendWebhookSync` command. The body is kept as the flat JSON object it
    encodes, a map from key to string.
   */
  datatype WebhookRequest = WebhookRequest(
    url: string,
    body: map<string, string>,
    httpMethod: string,
    contentType: string,
    httpHeader: map<string, string>)

  /**
    The transport's answer to a webhook command: the error delivery failed
    with, `None` when it succeeded.
   */
  type Sender = WebhookRequest -> Option<Error>

  /**
    The notification service's webhook sender. It keeps every command handed
    to it, in order, and answers each with what the transport returns for it.
   */
  class WebhookSender {
    var sent: seq<WebhookRequest>
    const respond: Sender

    constructor (respond: Sender)
      ensures sent == [] && this.respond == respond
    {
      sent := [];
      this.respond := respond;
    }

    /** `SendWebhookSync`: delivers one command and returns the transport's error, if any. */
    method SendWebhookSync(cmd: WebhookRequest) returns (err: Option<Error>)
      modifies this
      ensures sent == old(sent) + [cmd]
      ensures err == respond(cmd)
    {
      sent := sent + [cmd];
      err := respond(cmd);
    }
  }
}
