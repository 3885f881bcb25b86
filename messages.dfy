/** Outgoing message segments and incoming events, as abstract records.
    Sending, rendering and the adapters' own message classes are not
    modelled; only what the core puts into a message is. */
module Messages {

  datatype Segment =
    | Text(text: string)
    /** A picture rendered from this markdown. */
    | Image(markdown: string)
    /** Quotes the message with this id. */
    | ReplyTo(messageId: int)
    /** A node of a forwarded bundle. */
    | Node(userId: int, nickname: string, content: seq<Segment>)

  type Message = seq<Segment>

  /** The three kinds of OneBot v11 message event the plugin tells apart. */
  datatype OneBotKind = PrivateChat | GroupChat(groupId: int) | GuildChat(guildId: int, channelId: int)

  /** An incoming message event. A OneBot event carries its kind, its
      `sub_type` (`'group'` marks a group-temporary chat), the sender and the
      id of the message itself; a Telegram event carries `from_`. */
  datatype Event =
    | OneBot(kind: OneBotKind, subType: string, userId: int, nickname: string, messageId: int)
    | Telegram(fromId: int, username: string)
}
