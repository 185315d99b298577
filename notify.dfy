/** The delivery destinations and what each one is sent: discussions and
    Slack get the body as is, Discord a body cut to its size limit
    (`send_slack_notification`, `send_discord_notification`). */
module Notify {

  datatype TargetKind = DiscussionKind | SlackKind | DiscordKind

  /** A fully configured destination. */
  datatype Target =
    | DiscussionTarget(repoName: string, pat: string, category: string)
    | SlackTarget(webhookUrl: string, channel: string)
    | DiscordTarget(webhookUrl: string)
  {
    function Kind(): TargetKind {
      match this
      case DiscussionTarget(_, _, _) => DiscussionKind
      case SlackTarget(_, _) => SlackKind
      case DiscordTarget(_) => DiscordKind
    }
  }

  /** Position of a destination kind in the fixed dispatch order. */
  function Rank(k: TargetKind): nat {
    match k
    case DiscussionKind => 0
    case SlackKind => 1
    case DiscordKind => 2
  }

  /** One call of a delivery function, with the title and body `main` passes. */
  datatype Delivery = Delivery(target: Target, title: string, body: string)

  const DiscordLimit := 4000
  const TruncationNotice := "\n\n... (message truncated)"

  /** The embed description Discord is sent for a message. */
  function DiscordDescription(text: string): (description: string)
    ensures |text| <= DiscordLimit ==> description == text
    ensures |text| > DiscordLimit ==>
      |description| == DiscordLimit + |TruncationNotice| && |description| == 4025 &&
      description[..DiscordLimit] == text[..DiscordLimit] &&
      description[DiscordLimit..] == TruncationNotice
    ensures |description| <= 4025
  {
    if |text| > DiscordLimit then text[..DiscordLimit] + TruncationNotice else text
  }

  /** Cutting an already cut message changes nothing. */
  lemma DiscordDescriptionIdempotent(text: string)
    ensures DiscordDescription(DiscordDescription(text)) == DiscordDescription(text)
  {
    var d := DiscordDescription(text);
    if |text| > DiscordLimit {
      assert d[..DiscordLimit] + TruncationNotice == d;
    }
  }

  /** The part of the Discord webhook payload the model keeps. */
  datatype DiscordEmbed = DiscordEmbed(title: string, description: string)

  /** The message handling of `send_discord_notification`: the local message
      text is reassigned to its cut form when it is over the limit; the
      caller's value is a separate copy and is left as it was. */
  method SendDiscordNotification(webhookUrl: string, messageText: string, title: string)
    returns (embed: DiscordEmbed)
    ensures embed.title == title
    ensures |messageText| <= DiscordLimit ==> embed.description == messageText
    ensures |messageText| > DiscordLimit ==>
      embed.description == messageText[..DiscordLimit] + TruncationNotice
    ensures embed.description == DiscordDescription(messageText)
  {
    var text := messageText;
    if |text| > DiscordLimit {
      text := text[..DiscordLimit] + TruncationNotice;
    }
    embed := DiscordEmbed(title, text);
  }

  /** The part of the Slack webhook payload the model keeps. */
  datatype SlackMessage = SlackMessage(channel: string, fallback: string, header: string, section: string)

  /** `send_slack_notification`'s payload: the title as header (and, in bold,
      as fallback text) and the message as the section, never cut. */
  function SlackPayload(channel: string, messageText: string, title: string): (m: SlackMessage)
    ensures m.section == messageText && m.header == title && m.channel == channel
    ensures m.fallback == "*" + title + "*"
  {
    SlackMessage(channel, "*" + title + "*", title, messageText)
  }

  /** The body text that reaches a destination. */
  function PostedText(d: Delivery): string {
    match d.target
    case DiscordTarget(_) => DiscordDescription(d.body)
    case SlackTarget(_, channel) => SlackPayload(channel, d.body, d.title).section
    case DiscussionTarget(_, _, _) => d.body
  }

  /** Only Discord ever changes the body, and only beyond 4000 characters;
      every destination sees at least the first 4000 characters unchanged. */
  lemma PostedTextKeepsPrefix(d: Delivery)
    ensures d.target.Kind() != DiscordKind ==> PostedText(d) == d.body
    ensures |d.body| <= DiscordLimit ==> PostedText(d) == d.body
    ensures var n := if |d.body| <= DiscordLimit then |d.body| else DiscordLimit;
      n <= |PostedText(d)| && PostedText(d)[..n] == d.body[..n]
  {
  }
}
