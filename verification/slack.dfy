/** The chat notification sent to the webhook: a fixed sender identity, the
    destination channel, and one attachment coloured by severity whose
    fields carry the marked level, the raw message, the timestamp and, when
    present, the extra data. */
module Slack {
  import opened Wrappers
  import opened Levels
  import opened Json

  datatype Field = Field(title: string, value: string, short: bool)

  datatype Attachment = Attachment(color: string, fields: seq<Field>)

  datatype Payload = Payload(channel: string, username: string, iconEmoji: string, attachments: seq<Attachment>)

  const DefaultChannel := "#logs"
  const BotName := "LogBot"
  const BotIcon := ":robot_face:"
  const TimestampTitle := "Timestamp"
  const ExtraTitle := "Dados Extras"
  const CodeFence := "```"

  /** Colour per level (green, blue, orange, red, purple) and the value
      `dict.get` falls back to. */
  const ColorMap: map<Level, string> := map[
    Debug := "#36a64f",
    Info := "#2196F3",
    Warning := "#ff9800",
    Error := "#f44336",
    Critical := "#9c27b0"
  ]
  const FallbackColor := "#36a64f"

  /** Marker glyph per level and the value `dict.get` falls back to. */
  const EmojiMap: map<Level, string> := map[
    Debug := "\U{1F50D}",
    Info := "\U{2139}\U{FE0F}",
    Warning := "\U{26A0}\U{FE0F}",
    Error := "\U{274C}",
    Critical := "\U{1F6A8}"
  ]
  const FallbackEmoji := "\U{1F4DD}"

  /** `m.get(l, default)`. */
  function Lookup(m: map<Level, string>, l: Level, default: string): string {
    if l in m then m[l] else default
  }

  function Color(l: Level): string {
    Lookup(ColorMap, l, FallbackColor)
  }

  function Emoji(l: Level): string {
    Lookup(EmojiMap, l, FallbackEmoji)
  }

  /** Both tables cover every level, so neither fallback is ever taken, and
      both are injective: distinct levels get distinct colours and distinct
      markers (in particular CRITICAL's marker is not ERROR's). */
  lemma TablesTotalAndInjective(a: Level, b: Level)
    ensures a in ColorMap && a in EmojiMap
    ensures Color(a) == ColorMap[a] && Emoji(a) == EmojiMap[a]
    ensures Emoji(a) != FallbackEmoji
    ensures a != b ==> Color(a) != Color(b) && Emoji(a) != Emoji(b)
  {
  }

  /** `self.slack_channel or "#logs"`: `None` and the empty string fall back. */
  function ChannelOrDefault(slackChannel: Option<string>): (c: string)
    ensures slackChannel.Some? && slackChannel.value != "" ==> c == slackChannel.value
    ensures slackChannel.None? || slackChannel.value == "" ==> c == DefaultChannel
  {
    if slackChannel.Some? && |slackChannel.value| > 0 then slackChannel.value else DefaultChannel
  }

  function LevelTitle(l: Level): string {
    Emoji(l) + " " + Value(l)
  }

  /** Payload `_send_to_slack` posts for one record, with `timestamp` the
      already formatted capture time. */
  function BuildPayload(slackChannel: Option<string>, message: string, level: Level,
                        extra: Option<Members>, timestamp: string): (p: Payload)
    ensures p.channel == ChannelOrDefault(slackChannel)
    ensures p.username == BotName && p.iconEmoji == BotIcon
    ensures |p.attachments| == 1
    ensures p.attachments[0].color == ColorMap[level]
    ensures |p.attachments[0].fields| == (if HasExtra(extra) then 3 else 2)
    ensures p.attachments[0].fields[0] == Field(EmojiMap[level] + " " + Value(level), message, false)
    ensures p.attachments[0].fields[1] == Field(TimestampTitle, timestamp, true)
    ensures HasExtra(extra) ==>
              p.attachments[0].fields[2] == Field(ExtraTitle, CodeFence + Pretty(Object(extra.value), 0) + CodeFence, false)
  {
    var base := [Field(LevelTitle(level), message, false), Field(TimestampTitle, timestamp, true)];
    var fields :=
      if HasExtra(extra) then base + [Field(ExtraTitle, CodeFence + Pretty(Object(extra.value), 0) + CodeFence, false)]
      else base;
    Payload(ChannelOrDefault(slackChannel), BotName, BotIcon, [Attachment(Color(level), fields)])
  }

  /** The attachment alone identifies the level: its colour and its first
      field's title each determine it. */
  lemma PayloadDeterminesLevel(ch1: Option<string>, m1: string, l1: Level, e1: Option<Members>, t1: string,
                               ch2: Option<string>, m2: string, l2: Level, e2: Option<Members>, t2: string)
    ensures BuildPayload(ch1, m1, l1, e1, t1).attachments[0].color == BuildPayload(ch2, m2, l2, e2, t2).attachments[0].color
            ==> l1 == l2
    ensures BuildPayload(ch1, m1, l1, e1, t1).attachments[0].fields[0].title
            == BuildPayload(ch2, m2, l2, e2, t2).attachments[0].fields[0].title
            ==> l1 == l2
  {
    TablesTotalAndInjective(l1, l2);
    var title1 := BuildPayload(ch1, m1, l1, e1, t1).attachments[0].fields[0].title;
    var title2 := BuildPayload(ch2, m2, l2, e2, t2).attachments[0].fields[0].title;
    if title1 == title2 {
      // the markers already differ in their first code point
      assert title1[0] == EmojiMap[l1][0] && title2[0] == EmojiMap[l2][0];
    }
  }
}
