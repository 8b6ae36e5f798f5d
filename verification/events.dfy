/**
 Inbound normalisation of the Feishu channel: the synchronous callback that turns a
 raw `im.message.receive_v1` event into either a drop or the record that is put on the
 event queue.

 The JSON parser is not modelled: the callback receives it as a function `decode`
 from the raw content string to a `Decoded` value, which says whether the string was
 valid JSON and, if it was an object, what its fields are.
 */
module Events {
  import opened Optional

  /** The only message type the channel accepts. */
  const TextType: string := "text"

  /** The key of the text field inside a text message's JSON content. */
  const TextKey: string := "text"

  /** Metadata keys under which a message's chat type and message id travel on the bus. */
  const ChatTypeKey: string := "chat_type"
  const MessageIdKey: string := "message_id"

  /** A JSON value as far as the channel looks at it: a string, or anything else. */
  datatype Json = JString(s: string) | JOther

  /** What decoding the raw content produced. */
  datatype Decoded =
    | NotJson                              // the parser raised a decode error
    | NonObject                            // valid JSON, but not an object
    | Object(fields: map<string, Json>)    // a JSON object

  /** The fields of a received event that the callback reads. An absent string field is `""`. */
  datatype RawEvent = RawEvent(
    senderId: string,      // sender.sender_id.open_id
    chatId: string,
    messageId: string,
    chatType: string,      // "p2p" or "group"
    messageType: string,   // "text", "image", ...
    content: string)       // raw, JSON-encoded content

  /** The record the callback places on the event queue. */
  datatype QueuedEvent = QueuedEvent(
    senderId: string,
    chatId: string,
    content: string,
    chatType: string,
    messageId: string)

  /** Why an event was dropped at the callback (the warning or error it logs). */
  datatype DropReason =
    | UnsupportedType      // message type other than "text"
    | Malformed            // content that made the handler raise: JSON that is not an object
    | EmptyContent         // the extracted text is empty

  datatype Verdict = Drop(reason: DropReason) | Accept(event: QueuedEvent)

  /**
   The text of a text message's content: the decoded object's "text" field (empty when
   the field is missing), the raw string when it does not decode, and the empty string
   when there is no raw content. `None` stands for the exception path (JSON that is not
   an object, or a "text" field that is not a string).
   */
  function ExtractText(raw: string, decode: string -> Decoded): Option<string>
  {
    if raw == "" then Some("")
    else match decode(raw)
      case NotJson => Some(raw)
      case NonObject => None
      case Object(fields) =>
        if TextKey !in fields then Some("")
        else match fields[TextKey]
          case JString(s) => Some(s)
          case JOther => None
  }

  /** The queued record built from an event and its extracted content. */
  function Enqueued(ev: RawEvent, content: string): QueuedEvent
  {
    QueuedEvent(ev.senderId, ev.chatId, content, ev.chatType, ev.messageId)
  }

  /**
   The callback's decision for one event. Non-text events are dropped; text events are
   dropped when their extracted content is empty and accepted otherwise.
   */
  function Normalise(ev: RawEvent, decode: string -> Decoded): (v: Verdict)
    ensures ev.messageType != TextType ==> v == Drop(UnsupportedType)
    ensures v.Accept? <==>
              ev.messageType == TextType
              && ExtractText(ev.content, decode).Some?
              && ExtractText(ev.content, decode).value != ""
    ensures v.Accept? ==>
              && v.event.content != ""
              && v.event.senderId == ev.senderId
              && v.event.chatId == ev.chatId
              && v.event.chatType == ev.chatType
              && v.event.messageId == ev.messageId
  {
    if ev.messageType != TextType then Drop(UnsupportedType)
    else match ExtractText(ev.content, decode)
      case None => Drop(Malformed)
      case Some(text) => if text == "" then Drop(EmptyContent) else Accept(Enqueued(ev, text))
  }

  /**
   The content a text event is queued with, case by case: undecodable content is passed
   through verbatim, a decoded object's "text" string is queued, and an empty raw
   content, a missing or empty "text" field is dropped as empty; JSON that is not an
   object is dropped as malformed.
   */
  lemma NormaliseContent(ev: RawEvent, decode: string -> Decoded)
    requires ev.messageType == TextType
    // an empty raw content, or an object without a "text" field, yields nothing to queue
    ensures ev.content == "" ==> Normalise(ev, decode) == Drop(EmptyContent)
    ensures ev.content != "" && decode(ev.content).Object?
            && TextKey !in decode(ev.content).fields
            ==> Normalise(ev, decode) == Drop(EmptyContent)
    // undecodable content is passed through verbatim
    ensures ev.content != "" && decode(ev.content).NotJson?
            ==> Normalise(ev, decode) == Accept(Enqueued(ev, ev.content))
    // the decoded "text" field is what is queued
    ensures ev.content != "" && decode(ev.content).Object?
            && TextKey in decode(ev.content).fields
            && decode(ev.content).fields[TextKey].JString?
            && decode(ev.content).fields[TextKey].s != ""
            ==> Normalise(ev, decode) == Accept(Enqueued(ev, decode(ev.content).fields[TextKey].s))
    ensures ev.content != "" && decode(ev.content).Object?
            && TextKey in decode(ev.content).fields
            && decode(ev.content).fields[TextKey] == JString("")
            ==> Normalise(ev, decode) == Drop(EmptyContent)
    ensures ev.content != "" && decode(ev.content).NonObject?
            ==> Normalise(ev, decode) == Drop(Malformed)
  {
  }
}
