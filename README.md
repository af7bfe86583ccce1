# Webex notification channel, modelled in Dafny

This project models Grafana's Webex notification channel in its two generations.
Both turn channel settings and alert state into one outbound webhook request.

- **Unified alerting** (`Channels`, `channels_webex.dfy`). `NewWebexConfig` validates the
  settings and `WebexFactory` wraps its error. `SendResolved` reports the resolve-suppression
  flag. `Notify` picks the batch glyph, assembles the markdown message and appends one line per
  stored image with a URL. It then hands `{"markdown": message}` to the webhook sender and maps
  the transport result to `(delivered, error)`. `Notify` is a method with a loop over the
  images, as in the source.
- **Legacy alerting** (`Notifiers`, `notifiers_webex.dfy`). `NewWebexNotifier` validates the
  settings. A three-state glyph switch, a different message layout and a conditional `markdown`
  body feed `Notify`. All of these are pure functions except `Notify`, a method that hands
  the request to the webhook sender.
- Shared pieces (`webhook.dfy`, `results.dfy`): JSON setting values, `MustString`
  with its default, the state glyphs, the `SendWebhookSync` command record, the webhook
  sender, and Option/Result. The sender is an object that records every command handed to
  it, so the number and order of deliveries are part of `Notify`'s contract.

Collaborators are parameters:
- `render`: the text function the template engine returns.
- `join`: `path.Join`.
- `externalURL`: the external URL.
- `images`: the stored images of the batch.
- `sender`: the notification service. Its `respond` function is the transport's answer to a
  command, an error or none.
- In the legacy notifier, the notification title is a field of the evaluation context.

## Behaviour as written

- The unified-alerting validation error reads "could not find Webex Webhook URL in settings".
  It does not name the `webhook_url` key.
- Neither generation builds a room-ID payload. Both send an empty header map and no
  `Authorization` header.
- The legacy notifier emits `markdown` only when the `content` setting is non-empty. The
  setting's value is never used, and the emptiness of the message plays no part.
  `Notifiers.WithoutContentBodyIsEmpty` shows the consequence: a notifier set up with only a
  webhook URL posts `{}`. The unified notifier always emits `markdown`.
- The glyph choice is two-state in the unified notifier (resolved, otherwise firing). It is
  three-state in the legacy one, with nothing for paused, pending and unknown rules.

## Model

| member | source | states |
|---|---|---|
| `Webhook.MustString` | pkg/services/alerting/notifiers/webex.go:43-48 | the string stored under the key when the key holds a JSON string; the default when the key is missing or holds any other JSON value |
| `Channels.NewWebexConfig` | pkg/services/ngalert/notifier/channels/webex.go:50-60 | fails, with "could not find Webex Webhook URL in settings", exactly when `webhook_url` is missing, not a string or empty; on success the URL is the setting and the content is the `message` setting, or the default message template when that is absent |
| `Channels.NewWebexNotifier` | pkg/services/ngalert/notifier/channels/webex.go:62-79 | the notifier keeps the config's UID, name, type, URL and content, and sends resolved notifications exactly when the config does not disable them |
| `Channels.WebexFactory` | pkg/services/ngalert/notifier/channels/webex.go:39-48 | returns a notifier exactly when the config validates; otherwise a receiver-init error whose reason is the validation error's text and which carries the config; a built notifier carries the setting's URL, the identity and `SendResolved == !disableResolveMessage` |
| `Channels.SendResolved` | pkg/services/ngalert/notifier/channels/webex.go:136-138 | false exactly when resolve messages are disabled |
| `Channels.StateEmoji` | pkg/services/ngalert/notifier/channels/webex.go:88-93 | check mark if and only if the batch is resolved, warning sign if and only if it is firing |
| `Channels.BaseMessage` | pkg/services/ngalert/notifier/channels/webex.go:96-101 | the message splits into glyph and title, the `*Message:*` label, the content, and the `*URL:*` line with the deep link, at the stated positions |
| `Channels.ImageLine` | pkg/services/ngalert/notifier/channels/webex.go:110 | an image line is the `*Image:* ` label, the URL and a newline |
| `Channels.ImageLines` | pkg/services/ngalert/notifier/channels/webex.go:107-113 | the appended lines are empty if and only if no image has a URL |
| `Channels.NonEmptyURLs` | pkg/services/ngalert/notifier/channels/webex.go:107-113 | the URLs that produce a line: each non-empty, never more than the images, and every non-empty image URL among them |
| `Channels.PositionsWithURLSound` | pkg/services/ngalert/notifier/channels/webex.go:107-113 | every listed position names an image with a non-empty URL |
| `Channels.PositionsWithURLAscending` | pkg/services/ngalert/notifier/channels/webex.go:107-113 | the listed positions are strictly ascending |
| `Channels.PositionsWithURLComplete` | pkg/services/ngalert/notifier/channels/webex.go:107-113 | every image with a non-empty URL is listed |
| `Channels.NonEmptyURLsInImageOrder` | pkg/services/ngalert/notifier/channels/webex.go:107-113 | the k-th URL that produces a line is the URL of the k-th image that has one, so the lines follow image order |
| `Channels.NotificationText` | pkg/services/ngalert/notifier/channels/webex.go:96-113 | the posted message starts with the unchanged base message and continues with exactly one image line per non-empty URL |
| `Channels.Notify` | pkg/services/ngalert/notifier/channels/webex.go:82-134 | the sender's record gains exactly one command: URL = `WebhookURL`, POST, `application/json; charset=utf-8`, no headers, a body whose only key `markdown` holds the posted message; returns the transport's error with `delivered == false`, or `(true, none)` |
| `Channels.ImageLinesAppend` | pkg/services/ngalert/notifier/channels/webex.go:107-113 | image lines of a concatenation of image lists are the concatenation of their lines |
| `Channels.ImageLinesPerNonEmptyURL` | pkg/services/ngalert/notifier/channels/webex.go:107-113 | the appended text is exactly one `*Image:* <url>` line per non-empty URL, in image order |
| `Channels.StatusOfStateEmoji` | pkg/services/ngalert/notifier/channels/webex.go:88-93 | a reader can tell the two glyphs apart: any text starting with a glyph decodes to the status that chose it |
| `Channels.NotificationRevealsStatus` | pkg/services/ngalert/notifier/channels/webex.go:88-101 | every posted message decodes, from its first glyph, to the batch status |
| `Channels.EmptySettingsRejected` | pkg/services/ngalert/notifier/channels/webex.go:39-54 | empty settings are refused with the missing-URL reason and the config |
| `Channels.WebhookOnlySettingsAccepted` | pkg/services/ngalert/notifier/channels/webex.go:50-59 | settings holding only a non-empty `webhook_url` are accepted with that URL and the default message template |
| `Notifiers.NewWebexNotifier` | pkg/services/alerting/notifiers/webex.go:42-56 | fails with validation error "Could not find webhook_url property in settings" exactly when `webhook_url` is missing, not a string or empty; on success name and type come from the model, the URL is the setting and content is the `content` setting or `""` |
| `Notifiers.StateEmoji` | pkg/services/alerting/notifiers/webex.go:71-82 | check mark if and only if OK, question mark if and only if no data, warning sign if and only if alerting, empty for every other state |
| `Notifiers.Message` | pkg/services/alerting/notifiers/webex.go:84-87 | the message splits into glyph and title, the `*State:*` label, the rule's name, the `*Message:*` label, the rule's message and a final newline, at the stated positions |
| `Notifiers.Body` | pkg/services/alerting/notifiers/webex.go:89-93 | has the `markdown` key if and only if `content` is non-empty, no other key, and that key holds the message |
| `Notifiers.Request` | pkg/services/alerting/notifiers/webex.go:84-102 | URL = `WebhookURL`, POST, `application/json; charset=utf-8`, no headers, body empty or `{"markdown": message}` by the emptiness of `content` |
| `Notifiers.Notify` | pkg/services/alerting/notifiers/webex.go:104-109 | the sender's record gains exactly `Request(n, ctx)`, and the result is the transport's answer to it: the sender's error unchanged, or none |
| `Notifiers.StateOfStateEmoji` | pkg/services/alerting/notifiers/webex.go:72-82 | a reader can tell the three glyphs apart: text starting with one decodes to its state |
| `Notifiers.MessageRevealsState` | pkg/services/alerting/notifiers/webex.go:72-87 | for OK, no-data and alerting rules the message decodes, from its first glyph, to the rule's state |
| `Notifiers.RequestIgnoresContentValue` | pkg/services/alerting/notifiers/webex.go:89-102 | two notifiers with the same URL whose `content` is alike in emptiness send the same request: the value of `content` never reaches the wire |
| `Notifiers.EmptySettingsRejected` | pkg/services/alerting/notifiers/webex_test.go:17-29 | empty settings are refused with the validation error |
| `Notifiers.WebhookSettingsAccepted` | pkg/services/alerting/notifiers/webex_test.go:31-51 | the test's settings yield a notifier named "ops" of type "webex" with the given URL |
| `Notifiers.WithoutContentBodyIsEmpty` | pkg/services/alerting/notifiers/webex.go:89-93 | a notifier configured without `content` posts an empty body whatever the alert |

## Left out

- Webhook delivery (`SendWebhookSync`) is network I/O. The model keeps the commands handed to the sender and the transport's answer, an error or none. It does not model how delivery happens.
- Context cancellation and deadlines: the code passes the context through and has no behaviour of its own for them.
- The template engine (`TmplText`, `template.Template`) is the `render` parameter. A template error is only logged, so the model has no template-error input. Nothing `Notify` sends depends on whether rendering failed.
- `DefaultMessageTitleEmbed` is defined in a file outside this model. Its value is written here as the `default.title` template, and only `render` ever looks at it.
- `GetNotificationTitle()` is opaque. It is the `notificationTitle` field of the evaluation context.
- `path.Join` cleans slashes. It is the opaque `join` parameter.
- The batch status (`types.Alerts(...).Status()`) comes from an unseen library. It is an input.
- The image store (`withStoredImages`) is storage I/O that swallows its own errors. The model keeps only the list of images it yields.
- JSON encoding, and the marshal error the code ignores, are left out. The body is modelled as a map from key to string.
- Logging calls are left out.
- The legacy `init()` registration and its form metadata are left out.
- Secret decryption is left out because neither constructor decrypts anything.
- `NewBase` is not part of this model. The unified notifier's base keeps the UID, name, type and resolve flag copied from the channel configuration; the settings map it also stores is never read by the Webex notifier.
- `NewNotifierBase` is not part of this model. The legacy notifier keeps only the name and type it copies from the notification.
- Collaborator handles (image store, sender, template) stored in the unified notifier are not modelled as fields. They are parameters of `Notify` instead.
