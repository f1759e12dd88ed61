/**
 * The values the LINE Messaging SDK hands to the webhook after it has
 * verified and decoded a request: events and their message payloads.
 */
module Line {
  import opened Wrappers

  /** The `type` string the SDK stores in an event that carries a message. */
  const EventTypeMessage: string := "message"

  /**
   * A message payload. The SDK exposes it as an interface with one concrete
   * type per variant; the webhook distinguishes text and image messages and
   * treats every other variant (video, audio, file, location, sticker, ...)
   * alike, so those are folded into OtherMessage, tagged by their kind.
   */
  datatype Message =
    | TextMessage(text: string)
    | ImageMessage(originalContentURL: string, previewImageURL: string)
    | OtherMessage(kind: string)

  /**
   * One event of a webhook batch. `eventType` is the SDK's event type
   * string ("message", "follow", "postback", ...); `message` is None when
   * the event carries no message (a nil interface value).
   */
  datatype Event = Event(eventType: string, replyToken: string, message: Option<Message>)
}
