/**
 Outbound routing of the Feishu channel: which request `send` builds for an outbound
 message. Direct ("p2p") conversations get a *create* request addressed by chat id;
 every other chat type gets a *reply* to the message named in the metadata.

 The Lark request builders and `json.dumps` are not modelled: a request is a plain
 record, and the JSON content {"text": ...} is the constructor `TextPayload`.
 */
module Outbound {
  import opened Events

  /** Chat type of a one-to-one conversation; also the default when none is given. */
  const P2P: string := "p2p"

  /** `receive_id_type` of a create request: the receiver is named by its chat id. */
  const ChatIdType: string := "chat_id"

  /** `msg_type` of every request the channel sends. */
  const TextMsgType: string := "text"

  /** A message the bus hands to the channel. */
  datatype OutboundMessage = OutboundMessage(
    channel: string,
    chatId: string,
    content: string,
    metadata: map<string, string>)

  /** The JSON object {"text": text} sent as a request's content. */
  datatype TextPayload = TextPayload(text: string)

  datatype Request =
    | Create(receiveIdType: string, receiveId: string, msgType: string, payload: TextPayload)
    | Reply(messageId: string, msgType: string, payload: TextPayload)

  /** Why `send` returned without issuing a request (the error it logs). */
  datatype SendError =
    | ClientNotRunning     // no API client: the channel is not started
    | MissingMessageId     // a non-p2p chat without a message to reply to

  datatype SendOutcome = Issued(request: Request) | NotSent(reason: SendError)

  /** The message's chat type, "p2p" when the metadata has none. */
  function ChatTypeOf(msg: OutboundMessage): string
  {
    if ChatTypeKey in msg.metadata then msg.metadata[ChatTypeKey] else P2P
  }

  /** The message id to reply to; `""` when the metadata has none (both are falsy). */
  function MessageIdOf(msg: OutboundMessage): string
  {
    if MessageIdKey in msg.metadata then msg.metadata[MessageIdKey] else ""
  }

  /**
   The request `send` issues once an API client exists. A p2p message always yields a
   create request to its chat; any other chat type yields a reply to the metadata's
   message id, or nothing when that id is missing or empty.
   */
  function Route(msg: OutboundMessage): (r: SendOutcome)
    // a request is issued exactly when it is p2p or there is a message to reply to
    ensures r.Issued? <==> ChatTypeOf(msg) == P2P || MessageIdOf(msg) != ""
    ensures r.NotSent? ==> r.reason == MissingMessageId
    // the shape of the request follows the chat type
    ensures r.Issued? ==> (r.request.Create? <==> ChatTypeOf(msg) == P2P)
    // every request carries the message's content as a text payload
    ensures r.Issued? ==> r.request.msgType == TextMsgType && r.request.payload == TextPayload(msg.content)
    ensures r.Issued? && r.request.Create? ==>
              r.request.receiveIdType == ChatIdType && r.request.receiveId == msg.chatId
    ensures r.Issued? && r.request.Reply? ==>
              MessageIdKey in msg.metadata && r.request.messageId == msg.metadata[MessageIdKey] && r.request.messageId != ""
  {
    var payload := TextPayload(msg.content);
    if ChatTypeOf(msg) == P2P then
      Issued(Create(ChatIdType, msg.chatId, TextMsgType, payload))
    else if MessageIdOf(msg) == "" then
      NotSent(MissingMessageId)
    else
      Issued(Reply(MessageIdOf(msg), TextMsgType, payload))
  }

  /** A message without a chat type is routed as p2p: a create request to its chat. */
  lemma MissingChatTypeIsP2P(msg: OutboundMessage)
    requires ChatTypeKey !in msg.metadata
    ensures Route(msg) == Issued(Create(ChatIdType, msg.chatId, TextMsgType, TextPayload(msg.content)))
  {
  }
}
