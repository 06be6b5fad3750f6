/**
 * The `messages.upsert` handler of server.js: a batch of incoming messages
 * projected onto at most one `new_message` event.
 */
module MessagesUpsert {
  import opened Wrappers
  import opened Emissions

  /** `key.fromMe` is a boolean that may be null or absent. */
  datatype MessageKey = MessageKey(remoteJid: Option<string>, fromMe: Option<bool>)
  datatype ExtendedTextMessage = ExtendedTextMessage(text: Option<string>)
  /** The message payload; only its two text fields are read. */
  datatype Content = Content(conversation: Option<string>, extendedTextMessage: Option<ExtendedTextMessage>)
  datatype WAMessage = WAMessage(key: MessageKey, message: Option<Content>, pushName: Option<string>)

  /** What one invocation of the handler does. */
  datatype UpsertOutcome =
    | Ignored               // self-sent or payload-less: nothing is broadcast
    | Forward(event: Emission)
    | Threw                 // `messages[0]` is undefined: reading `.key` throws a TypeError

  /** The displayed text: the plain conversation text if truthy, else the extended text if truthy, else a sentinel. */
  function ExtractText(c: Content): (text: string)
    ensures text != ""
    ensures Truthy(c.conversation) ==> text == c.conversation.value
    ensures !Truthy(c.conversation) && c.extendedTextMessage.Some? && Truthy(c.extendedTextMessage.value.text) ==>
              text == c.extendedTextMessage.value.text.value
    ensures !Truthy(c.conversation) && (c.extendedTextMessage.None? || !Truthy(c.extendedTextMessage.value.text)) ==>
              text == MediaUnknown
  {
    var extended := match c.extendedTextMessage
      case None => None
      case Some(x) => x.text;
    Or(c.conversation, Or(extended, MediaUnknown))
  }

  /** The displayed sender name: the push name if truthy, else a sentinel. */
  function DisplayName(pushName: Option<string>): (name: string)
    ensures name != ""
    ensures Truthy(pushName) ==> name == pushName.value
    ensures !Truthy(pushName) ==> name == UnknownUser
  {
    Or(pushName, UnknownUser)
  }

  /** The handler's reaction to one batch: only `messages[0]` is examined. */
  function OnUpsert(messages: seq<WAMessage>): (r: UpsertOutcome)
    ensures r.Threw? <==> messages == []
    ensures r.Ignored? <==> messages != [] && (messages[0].key.fromMe == Some(true) || messages[0].message.None?)
    ensures r.Forward? ==> r.event.NewMessage?
    ensures r.Forward? ==> r.event.remoteJid == messages[0].key.remoteJid
    ensures r.Forward? ==> r.event.pushName == DisplayName(messages[0].pushName)
    ensures r.Forward? ==> r.event.text == ExtractText(messages[0].message.value)
  {
    if messages == [] then Threw
    else
      var msg := messages[0];
      if msg.key.fromMe != Some(true) && msg.message.Some? then
        Forward(NewMessage(msg.key.remoteJid, DisplayName(msg.pushName), ExtractText(msg.message.value)))
      else
        Ignored
  }

  /** A text message from someone else is forwarded with its text and sender name. */
  lemma PingFromAlice(jid: string)
    ensures OnUpsert([WAMessage(MessageKey(Some(jid), Some(false)), Some(Content(Some("ping"), None)), Some("Alice"))])
         == Forward(NewMessage(Some(jid), "Alice", "ping"))
  {
  }

  /** Two batches with the same first message get the same reaction. */
  lemma OnlyFirstMessageMatters(a: seq<WAMessage>, b: seq<WAMessage>)
    requires a != [] && b != [] && a[0] == b[0]
    ensures OnUpsert(a) == OnUpsert(b)
  {
  }
}
