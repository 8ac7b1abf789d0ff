/**
 * The two notification channels (`sendPushoverNotification`,
 * `sendDiscordNotification`): what each would send, and how the reply of
 * the POST request is turned into success or an error.
 */
module Notify {
  import opened Text

  /** Pushover credentials, read once from the environment. */
  datatype PushoverConfig = PushoverConfig(userKey: string, apiToken: string)

  /** Where the notifications go: the Pushover account and the Discord webhook URL. */
  datatype Settings = Settings(pushover: PushoverConfig, webhookUrl: string)

  const PushoverEndpoint: string := "https://api.pushover.net/1/messages.json"
  const LinkTitle: string := "TestFlight Link"

  const TitlePrefix: string := "Slot available: "
  const MessageLead: string := "A slot for the app '"
  const MessageMiddle: string := "' is available. Here is the link: "
  const ContentLead: string := "Slot available for **"
  const ContentMiddle: string := "**! Check it out here: "

  /** The Pushover title for an app. */
  function PushoverTitle(name: string): (title: string)
    ensures HasPrefix(title, TitlePrefix)
    ensures Contains(title, name)
  {
    ContainsPiece(TitlePrefix, name, "");
    assert TitlePrefix + name + "" == TitlePrefix + name;
    TitlePrefix + name
  }

  /** The Pushover message body for an app: it names the app and gives its link. */
  function PushoverMessage(name: string, url: string): (message: string)
    ensures HasPrefix(message, MessageLead)
    ensures Contains(message, name) && Contains(message, url)
  {
    var message := MessageLead + name + MessageMiddle + url;
    ContainsPiece(MessageLead, name, MessageMiddle + url);
    assert MessageLead + name + (MessageMiddle + url) == message;
    ContainsPiece(MessageLead + name + MessageMiddle, url, "");
    assert MessageLead + name + MessageMiddle + url + "" == message;
    message
  }

  /** The Discord message content for an app: it names the app and gives its link. */
  function DiscordContent(name: string, url: string): (content: string)
    ensures HasPrefix(content, ContentLead)
    ensures Contains(content, name) && Contains(content, url)
  {
    var content := ContentLead + name + ContentMiddle + url;
    ContainsPiece(ContentLead, name, ContentMiddle + url);
    assert ContentLead + name + (ContentMiddle + url) == content;
    ContainsPiece(ContentLead + name + ContentMiddle, url, "");
    assert ContentLead + name + ContentMiddle + url + "" == content;
    content
  }

  /** The six form fields of a Pushover request. */
  datatype PushoverForm = PushoverForm(
    token: string, user: string, title: string, message: string, url: string, urlTitle: string)

  /** The form posted to the Pushover endpoint for an app: the credentials, a title and message naming the app, and its link. */
  function PushoverRequest(config: PushoverConfig, name: string, url: string): (form: PushoverForm)
    ensures form.token == config.apiToken && form.user == config.userKey
    ensures Contains(form.title, name) && Contains(form.message, name) && Contains(form.message, url)
    ensures form.url == url && form.urlTitle == LinkTitle
  {
    PushoverForm(config.apiToken, config.userKey, PushoverTitle(name), PushoverMessage(name, url), url, LinkTitle)
  }

  /** Two different app names never share a Pushover title. */
  lemma TitleInjective(a: string, b: string)
    requires PushoverTitle(a) == PushoverTitle(b)
    ensures a == b
  {
    assert a == PushoverTitle(a)[|TitlePrefix|..];
    assert b == PushoverTitle(b)[|TitlePrefix|..];
  }

  /** Two apps get the same Pushover form only when they have the same name and URL. */
  lemma PushoverRequestIdentifiesApp(config: PushoverConfig, a: string, aUrl: string, b: string, bUrl: string)
    requires PushoverRequest(config, a, aUrl) == PushoverRequest(config, b, bUrl)
    ensures a == b && aUrl == bUrl
  {
    TitleInjective(a, b);
  }

  /** What a POST request gave: no response at all, or a response with a status code. */
  datatype PostOutcome = SendFailed | Posted(status: int)

  /**
   * Why a notification was not delivered. The status in `RejectedStatus`
   * stands for the reply body that the error text reports.
   */
  datatype NotifyError = SendError | RejectedStatus(status: int)

  /** The error a send function returns, or none. */
  datatype Delivery = Delivered | Undelivered(error: NotifyError)

  /** The reply to a Pushover POST: only status 200 is success. */
  function PushoverDelivery(post: PostOutcome): (d: Delivery)
    ensures d.Delivered? <==> post == Posted(200)
    ensures post.SendFailed? ==> d == Undelivered(SendError)
    ensures post.Posted? && post.status != 200 ==> d == Undelivered(RejectedStatus(post.status))
  {
    match post
    case SendFailed => Undelivered(SendError)
    case Posted(status) => if status == 200 then Delivered else Undelivered(RejectedStatus(status))
  }

  /** The reply to a Discord webhook POST: only status 204 (no content) is success. */
  function DiscordDelivery(post: PostOutcome): (d: Delivery)
    ensures d.Delivered? <==> post == Posted(204)
    ensures post.SendFailed? ==> d == Undelivered(SendError)
    ensures post.Posted? && post.status != 204 ==> d == Undelivered(RejectedStatus(post.status))
  {
    match post
    case SendFailed => Undelivered(SendError)
    case Posted(status) => if status == 204 then Delivered else Undelivered(RejectedStatus(status))
  }
}
