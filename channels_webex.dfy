/**
  The unified-alerting Webex channel (pkg/services/ngalert/notifier/channels/webex.go):
  configuration validation, the factory, the resolve-suppression flag and the
  `Notify` pipeline that renders one markdown message and posts it to the
  configured incoming webhook.

  The collaborators `Notify` calls are parameters: `render` is the text
  function `TmplText` returns, `join` is `path.Join`, `externalURL` is the
  template's external URL, `images` is what the image store yields for the
  batch, and `sender` is the notification service that delivers the command.
 */
module Channels {
  import opened Results
  import opened Webhook

  /** The channel configuration the factory is given. */
  datatype NotificationChannelConfig = NotificationChannelConfig(
    uid: string,
    name: string,
    channelType: string,
    disableResolveMessage: bool,
    settings: Settings)

  /** The validated Webex configuration. */
  datatype WebexConfig = WebexConfig(
    channel: NotificationChannelConfig,
    webhookURL: string,
    content: string)

  /** The factory's error: the validation error's text and the offending configuration. */
  datatype ReceiverInitError = ReceiverInitError(reason: string, cfg: NotificationChannelConfig)

  /** What the notifier's base keeps of the channel configuration. */
  datatype Base = Base(
    uid: string,
    name: string,
    channelType: string,
    disableResolveMessage: bool)

  /** A constructed Webex notifier (its collaborators are passed to `Notify`). */
  datatype WebexNotifier = WebexNotifier(base: Base, webhookURL: string, content: string)

  /** The aggregate status of the alert batch being notified. */
  datatype AlertStatus = Firing | Resolved

  /** A stored image attached to an alert of the batch. */
  datatype Image = Image(url: string)

  const MissingWebhookURL := "could not find Webex Webhook URL in settings"

  /** Message template used when the `message` setting is absent. */
  const DefaultContent := "{{ template \"default.message\" . }}"

  /** The title template every channel embeds (defined beside the default templates). */
  const DefaultMessageTitleEmbed := "{{ template \"default.title\" . }}"

  /** Path joined onto the external URL for the deep link. */
  const AlertListPath := "/alerting/list"

  /**
    `NewWebexConfig`: the webhook URL is required; the message template
    falls back to the default one.
   */
  function NewWebexConfig(config: NotificationChannelConfig): (r: Result<WebexConfig, Error>)
    ensures r.Failure? <==> !HasString(config.settings, "webhook_url") || config.settings["webhook_url"].s == ""
    ensures r.Failure? ==> r.error == MissingWebhookURL
    ensures r.Success? ==> r.value.channel == config && r.value.webhookURL == config.settings["webhook_url"].s
    ensures r.Success? ==>
      r.value.content == if HasString(config.settings, "message") then config.settings["message"].s else DefaultContent
  {
    var webhookURL := MustString(config.settings, "webhook_url", "");
    if webhookURL == "" then
      Failure(MissingWebhookURL)
    else
      Success(WebexConfig(config, webhookURL, MustString(config.settings, "message", DefaultContent)))
  }

  /** `NewWebexNotifier`: keeps the channel's identity and the validated fields. */
  function NewWebexNotifier(cfg: WebexConfig): (n: WebexNotifier)
    ensures n.webhookURL == cfg.webhookURL && n.content == cfg.content
    ensures n.base.uid == cfg.channel.uid && n.base.name == cfg.channel.name
    ensures n.base.channelType == cfg.channel.channelType
    ensures SendResolved(n) <==> !cfg.channel.disableResolveMessage
  {
    var c := cfg.channel;
    WebexNotifier(Base(c.uid, c.name, c.channelType, c.disableResolveMessage), cfg.webhookURL, cfg.content)
  }

  /**
    `WebexFactory`: a notifier exactly when the configuration validates;
    otherwise a `receiverInitError` carrying the validation error's text.
   */
  function WebexFactory(config: NotificationChannelConfig): (r: Result<WebexNotifier, ReceiverInitError>)
    ensures r.Failure? <==> NewWebexConfig(config).Failure?
    ensures r.Failure? ==> r.error.reason == NewWebexConfig(config).error && r.error.cfg == config
    ensures r.Success? ==>
      && HasString(config.settings, "webhook_url")
      && r.value.webhookURL == config.settings["webhook_url"].s != ""
      && r.value.content == NewWebexConfig(config).value.content
      && r.value.base.uid == config.uid
      && r.value.base.name == config.name
      && r.value.base.channelType == config.channelType
      && SendResolved(r.value) == !config.disableResolveMessage
  {
    match NewWebexConfig(config)
    case Failure(e) => Failure(ReceiverInitError(e, config))
    case Success(cfg) => Success(NewWebexNotifier(cfg))
  }

  /** `SendResolved`: resolved notifications go out unless they are disabled. */
  function SendResolved(n: WebexNotifier): (r: bool)
    ensures !r <==> n.base.disableResolveMessage
  {
    !n.base.disableResolveMessage
  }

  /** The state glyph of a batch: check mark when resolved, warning sign otherwise. */
  function StateEmoji(status: AlertStatus): (e: string)
    ensures e == CheckMark <==> status == Resolved
    ensures e == WarningSign <==> status == Firing
  {
    match status
    case Resolved => CheckMark
    case Firing => WarningSign
  }

  /** Reads the batch status back from the glyph a message starts with. */
  function StatusOf(message: string): Option<AlertStatus>
  {
    if |CheckMark| <= |message| && message[..|CheckMark|] == CheckMark then Some(Resolved)
    else if |WarningSign| <= |message| && message[..|WarningSign|] == WarningSign then Some(Firing)
    else None
  }

  /** The label line between the title and the rendered content. */
  const MessageLabel := "\n\n*Message:*\n"

  /** The label in front of the deep link. */
  const URLLabel := "\n*URL:* "

  /** The label in front of an image URL. */
  const ImageLabel := "*Image:* "

  /**
    The message before any image line: glyph and title, the `*Message:*`
    label, the content, then the `*URL:*` line with the deep link.
   */
  function BaseMessage(emoji: string, title: string, content: string, listURL: string): (m: string)
    ensures var head := emoji + title;
      var tail := URLLabel + listURL + "\n";
      && |m| == |head| + |MessageLabel| + |content| + |tail|
      && m[..|head|] == head
      && m[|head|..|head| + |MessageLabel|] == MessageLabel
      && m[|head| + |MessageLabel|..|m| - |tail|] == content
      && m[|m| - |tail|..] == tail
  {
    emoji + title + MessageLabel + content + URLLabel + listURL + "\n"
  }

  /** The line added for one image URL: the label, the URL, a newline. */
  function ImageLine(url: string): (line: string)
    ensures |line| == |ImageLabel| + |url| + 1
    ensures line[..|ImageLabel|] == ImageLabel && line[|ImageLabel|..|line| - 1] == url && line[|line| - 1] == '\n'
  {
    ImageLabel + url + "\n"
  }

  /**
    The lines the image callback appends, one per image with a URL, in order;
    nothing at all exactly when no image has a URL.
   */
  function ImageLines(images: seq<Image>): (lines: string)
    ensures lines == "" <==> forall i :: 0 <= i < |images| ==> images[i].url == ""
  {
    if images == [] then ""
    else
      var rest := ImageLines(images[1..]);
      assert forall i :: 1 <= i < |images| ==> images[i] == images[1..][i - 1];
      (if images[0].url != "" then ImageLine(images[0].url) else "") + rest
  }

  /** The non-empty image URLs of a batch, in image order. */
  function NonEmptyURLs(images: seq<Image>): (urls: seq<string>)
    ensures |urls| <= |images|
    ensures forall k :: 0 <= k < |urls| ==> urls[k] != ""
    ensures forall i :: 0 <= i < |images| && images[i].url != "" ==> images[i].url in urls
  {
    if images == [] then []
    else
      var rest := NonEmptyURLs(images[1..]);
      assert forall i :: 1 <= i < |images| ==> images[i] == images[1..][i - 1];
      if images[0].url != "" then [images[0].url] + rest else rest
  }

  /** The positions, from `from` on, of the images with a non-empty URL. */
  function PositionsWithURL(images: seq<Image>, from: nat): seq<nat>
    requires from <= |images|
    decreases |images| - from
  {
    if from == |images| then []
    else if images[from].url != "" then [from] + PositionsWithURL(images, from + 1)
    else PositionsWithURL(images, from + 1)
  }

  /** Each position is at least `from` and names an image that has a URL. */
  lemma {:induction false} PositionsWithURLSound(images: seq<Image>, from: nat)
    requires from <= |images|
    ensures forall k :: 0 <= k < |PositionsWithURL(images, from)| ==>
      from <= PositionsWithURL(images, from)[k] < |images| && images[PositionsWithURL(images, from)[k]].url != ""
    decreases |images| - from
  {
    if from < |images| {
      PositionsWithURLSound(images, from + 1);
      var rest := PositionsWithURL(images, from + 1);
      if images[from].url != "" {
        assert forall k :: 1 <= k < |rest| + 1 ==> ([from] + rest)[k] == rest[k - 1];
      }
    }
  }

  /** The positions are strictly ascending. */
  lemma {:induction false} PositionsWithURLAscending(images: seq<Image>, from: nat)
    requires from <= |images|
    ensures forall k, l :: 0 <= k < l < |PositionsWithURL(images, from)| ==>
      PositionsWithURL(images, from)[k] < PositionsWithURL(images, from)[l]
    decreases |images| - from
  {
    if from < |images| {
      PositionsWithURLAscending(images, from + 1);
      PositionsWithURLSound(images, from + 1);
      var rest := PositionsWithURL(images, from + 1);
      if images[from].url != "" {
        assert forall k :: 1 <= k < |rest| + 1 ==> ([from] + rest)[k] == rest[k - 1];
      }
    }
  }

  /** Every image from `from` on that has a URL is named among the positions. */
  lemma {:induction false} PositionsWithURLComplete(images: seq<Image>, from: nat)
    requires from <= |images|
    ensures forall i :: from <= i < |images| && images[i].url != "" ==> i in PositionsWithURL(images, from)
    decreases |images| - from
  {
    if from < |images| {
      PositionsWithURLComplete(images, from + 1);
    }
  }

  /**
    The k-th non-empty URL is the URL of the k-th image that has one: the
    URLs come out in image order.
   */
  lemma {:induction false} NonEmptyURLsInImageOrder(images: seq<Image>, from: nat)
    requires from <= |images|
    ensures |NonEmptyURLs(images[from..])| == |PositionsWithURL(images, from)|
    ensures forall k :: 0 <= k < |NonEmptyURLs(images[from..])| ==>
      PositionsWithURL(images, from)[k] < |images|
      && NonEmptyURLs(images[from..])[k] == images[PositionsWithURL(images, from)[k]].url
    decreases |images| - from
  {
    if from < |images| {
      NonEmptyURLsInImageOrder(images, from + 1);
      var tail := images[from..];
      assert tail[1..] == images[from + 1..];
      var urls, idx := NonEmptyURLs(tail[1..]), PositionsWithURL(images, from + 1);
      if images[from].url != "" {
        assert NonEmptyURLs(tail) == [images[from].url] + urls;
        assert PositionsWithURL(images, from) == [from] + idx;
        forall k | 1 <= k < |urls| + 1
          ensures ([from] + idx)[k] < |images| && ([images[from].url] + urls)[k] == images[([from] + idx)[k]].url
        {
          assert ([images[from].url] + urls)[k] == urls[k - 1];
          assert ([from] + idx)[k] == idx[k - 1];
        }
      } else {
        assert NonEmptyURLs(tail) == urls;
        assert PositionsWithURL(images, from) == idx;
      }
    }
  }

  /** One image line per URL, concatenated in order. */
  function LinesFor(urls: seq<string>): string
  {
    if urls == [] then "" else ImageLine(urls[0]) + LinesFor(urls[1..])
  }

  /**
    The whole markdown message `Notify` posts: the base message, unchanged,
    followed by exactly one image line per non-empty URL.
   */
  function NotificationText(
    n: WebexNotifier, status: AlertStatus, render: string -> string,
    externalURL: string, join: (string, string) -> string, images: seq<Image>): (text: string)
    ensures var base := BaseMessage(StateEmoji(status), render(DefaultMessageTitleEmbed), render(n.content), join(externalURL, AlertListPath));
      && |base| <= |text|
      && text[..|base|] == base
      && text[|base|..] == LinesFor(NonEmptyURLs(images))
  {
    ImageLinesPerNonEmptyURL(images);
    BaseMessage(StateEmoji(status), render(DefaultMessageTitleEmbed), render(n.content), join(externalURL, AlertListPath))
    + ImageLines(images)
  }

  /**
    `Notify`: builds the message, appends one line per stored image with a URL,
    and posts `{"markdown": message}` to the webhook URL. The outcome is the
    sender's: `(false, err)` on a transport error, `(true, nil)` otherwise.
   */
  method Notify(
    n: WebexNotifier, status: AlertStatus, render: string -> string,
    externalURL: string, join: (string, string) -> string, images: seq<Image>, sender: WebhookSender)
    returns (delivered: bool, err: Option<Error>)
    modifies sender
    ensures var cmd := WebhookRequest(
        n.webhookURL,
        map["markdown" := NotificationText(n, status, render, externalURL, join, images)],
        MethodPost, ContentType, map[]);
      && sender.sent == old(sender.sent) + [cmd]
      && err == sender.respond(cmd)
    ensures delivered <==> err.None?
  {
    var stateEmoji := WarningSign;
    if status.Resolved? {
      stateEmoji := CheckMark;
    }
    var message := BaseMessage(stateEmoji, render(DefaultMessageTitleEmbed), render(n.content), join(externalURL, AlertListPath));
    ghost var base := message;
    var i := 0;
    while i < |images|
      invariant 0 <= i <= |images|
      invariant message == base + ImageLines(images[..i])
      invariant sender.sent == old(sender.sent)
    {
      ImageLinesStep(base, images, i);
      if images[i].url != "" {
        message := message + ImageLine(images[i].url);
      }
      i := i + 1;
    }
    assert images[..i] == images;
    assert message == NotificationText(n, status, render, externalURL, join, images);

    var body := map["markdown" := message];
    var headers: map<string, string> := map[];
    var cmd := WebhookRequest(n.webhookURL, body, MethodPost, ContentType, headers);
    var sendErr := sender.SendWebhookSync(cmd);
    if sendErr.Some? {
      return false, sendErr;
    }
    return true, None;
  }

  /** Extending the visited prefix by one image adds that image's line, if any. */
  lemma ImageLinesStep(base: string, images: seq<Image>, i: nat)
    requires i < |images|
    ensures images[i].url != "" ==>
      base + ImageLines(images[..i]) + ImageLine(images[i].url) == base + ImageLines(images[..i + 1])
    ensures images[i].url == "" ==> base + ImageLines(images[..i]) == base + ImageLines(images[..i + 1])
  {
    assert images[..i + 1] == images[..i] + [images[i]];
    ImageLinesAppend(images[..i], [images[i]]);
    assert ImageLines([images[i]]) == (if images[i].url != "" then ImageLine(images[i].url) else "") + ImageLines([]);
  }

  /** Image lines of a concatenation are the concatenation of their image lines. */
  lemma {:induction false} ImageLinesAppend(a: seq<Image>, b: seq<Image>)
    ensures ImageLines(a + b) == ImageLines(a) + ImageLines(b)
  {
    if a == [] {
      assert a + b == b;
    } else {
      assert (a + b)[1..] == a[1..] + b;
      ImageLinesAppend(a[1..], b);
    }
  }

  /** Image lines are exactly one line per non-empty URL, in image order. */
  lemma {:induction false} ImageLinesPerNonEmptyURL(images: seq<Image>)
    ensures ImageLines(images) == LinesFor(NonEmptyURLs(images))
  {
    if images != [] {
      ImageLinesPerNonEmptyURL(images[1..]);
      if images[0].url != "" {
        var rest := NonEmptyURLs(images[1..]);
        assert ([images[0].url] + rest)[1..] == rest;
      }
    }
  }

  /** A message that starts with a state glyph gives the batch status back. */
  lemma StatusOfStateEmoji(status: AlertStatus, rest: string)
    ensures StatusOf(StateEmoji(status) + rest) == Some(status)
  {
    var m := StateEmoji(status) + rest;
    if status == Firing {
      assert m[0] == '\U{26A0}' != CheckMark[0];
      assert m[..|WarningSign|] == WarningSign;
    } else {
      assert m[..|CheckMark|] == CheckMark;
    }
  }

  /** Every posted message reveals, through its first glyph, whether the batch resolved. */
  lemma NotificationRevealsStatus(
    n: WebexNotifier, status: AlertStatus, render: string -> string,
    externalURL: string, join: (string, string) -> string, images: seq<Image>)
    ensures StatusOf(NotificationText(n, status, render, externalURL, join, images)) == Some(status)
  {
    var text := NotificationText(n, status, render, externalURL, join, images);
    var rest := text[|StateEmoji(status)|..];
    assert text == StateEmoji(status) + rest;
    StatusOfStateEmoji(status, rest);
  }

  /** A channel with empty settings is refused with the missing-URL reason. */
  lemma EmptySettingsRejected(config: NotificationChannelConfig)
    requires config.settings == map[]
    ensures WebexFactory(config) == Failure(ReceiverInitError(MissingWebhookURL, config))
  {
  }

  /**
    Settings holding only a webhook URL yield a notifier that posts to that URL
    with the default message template.
   */
  lemma WebhookOnlySettingsAccepted(config: NotificationChannelConfig, url: string)
    requires url != "" && config.settings == map["webhook_url" := JString(url)]
    ensures WebexFactory(config).Success?
    ensures WebexFactory(config).value.webhookURL == url
    ensures WebexFactory(config).value.content == DefaultContent
  {
  }
}
