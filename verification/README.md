# LINE bot webhook: event dispatch and reply composition

A model of the webhook in `main.go` of linebot-template. The webhook receives a
batch of LINE platform events in one POST request. It answers every message
event that carries a text or image message with one text reply on the event's
reply token, and rejects everything else with an error that it only logs.

- `wrappers.dfy` (`Wrappers`): `Option` and `Result`.
- `line.dfy` (`Line`): the SDK values the handler sees. An `Event` has a type
  string, a reply token and an optional `Message`. A `Message` is a text
  message, an image message, or any other variant.
- `replies.dfy` (`Replies`): the reply text composed for each message variant.
  It also holds decoders that recover the text or the two image URLs from a
  composed reply, with the round-trip lemmas that connect them.
- `dispatch.dfy` (`Dispatch`): `handleEvent`, `handleMessage` and `replyText`.
  - Specification functions give the reply call an event causes (`Plan`,
    `CallsOf`, `Calls` for a batch) and the error it returns (`Outcome`).
  - The platform client is a class `Client`. Its `sent` field records every
    reply call made. Its `network` oracle gives each call's error by call
    number; None means the call succeeded.
  - The handler methods are proved against those functions.
- `webhook.dfy` (`Webhook`): the POST handler's response selection and its
  batch loop (`HandleBatch`). It is proved to make exactly the calls `Calls(events)` in order. It
  returns, for every event, the error the handler logs. It answers 200 after
  a successful parse and 400 with the parser's message after a failed one.

Two behaviours of the code are modelled as written:

- A message event with no message goes to the type switch's default branch.
  It is rejected as an unsupported message type.
- The reply token is passed on as it is, even when it is empty.

## Model

| member | source | states |
|---|---|---|
| `Replies.ComposeReply` | main.go:67-77 | a reply exists exactly for text and image messages; it always starts with "Reply: "; its length is the prefix plus the text, or the prefix, both URLs and the preview separator |
| `Replies.TextOfReply` | main.go:70 | decoder partner for text replies: it succeeds exactly on strings with the "Reply: " prefix, and the prefix followed by its result gives back the input |
| `Replies.SplitImageReply` | main.go:73-74 | decoder partner for image replies: any pair it returns recomposes to the input, and its first URL holds no newline |
| `Replies.TextReplyRoundTrip` | main.go:70 | decoding the reply to a text message gives back exactly its text |
| `Replies.ImageReplyRoundTrip` | main.go:73-74 | decoding the reply to an image message whose original URL has no newline gives back both URLs |
| `Replies.ReplyDoesNotDetermineMessage` | main.go:70-74 | without that condition the reply is ambiguous: two different image messages, or a text and an image message, can get the same reply |
| `Replies.ComposeReplyExamples` | main.go:70-74 | "hi" is answered "Reply: hi"; the image (http://a, http://b) is answered "Reply: http://a\nPreview: http://b" |
| `Dispatch.MessagePlan` | main.go:66-78 | the message handler plans a call exactly for text and image messages, on the event's reply token; every other variant, including no message, is rejected with UnsupportedMessageType carrying the payload |
| `Dispatch.Plan` | main.go:58-64 | the event handler plans a call exactly for replyable events; a non-message event is rejected with UnsupportedEventType; a rejection is never a reply failure |
| `Dispatch.CallsOf` | main.go:58-78 | handling one event makes one call if it is replyable and none otherwise |
| `Dispatch.Outcome` | main.go:70-87 | a handler returns no error exactly when it made a call and that call succeeded; a failed call's error is returned unchanged |
| `Dispatch.RejectedOutcome` | main.go:58-78 | a handler that makes no call returns its plan's own error: UnsupportedEventType for a non-message event, UnsupportedMessageType for an unanswered variant |
| `Dispatch.Calls` | main.go:44-49 | a batch never makes more reply calls than it has events |
| `Dispatch.CallsAppend` | main.go:44-49 | handling two batches in turn makes the calls of the first, then those of the second |
| `Dispatch.CallsCount` | main.go:44-49 | the number of reply calls equals the number of message events with a text or image message |
| `Dispatch.CallsAt` | main.go:44-49 | every event is handled once, in its place: the calls of the events before it, then its own calls, then those after it |
| `Dispatch.RejectedEventMakesNoCall` | main.go:44-64 | a rejected event makes no call and does not change the calls of the events around it |
| `Dispatch.TextMessageReply` | main.go:68-70 | a text message event gets exactly one call, with its reply token and "Reply: " + text |
| `Dispatch.ImageMessageReply` | main.go:71-74 | an image message event gets exactly one call, with its reply token and "Reply: " + original + "\nPreview: " + preview |
| `Dispatch.Client.ReplyMessage` | main.go:81-82 | one outbound call: it is appended to the log, and its error is the network's outcome for that call number |
| `Dispatch.ReplyText` | main.go:80-87 | exactly one call, with the given token and text; the result is nil exactly when that call succeeds, otherwise the call's error |
| `Dispatch.HandleMessage` | main.go:66-78 | the calls made and the error returned are those of `MessagePlan` and `Outcome` |
| `Dispatch.HandleEvent` | main.go:58-64 | the calls made are `CallsOf(e)`; the error returned is `Outcome(Plan(e), …)` for the call number it used |
| `Webhook.HandleBatch` | main.go:44-49 | every event is handled in batch order whatever earlier events returned: the calls made are `Calls(events)`, and there is one result per event, each the outcome of that event on the call number its position gives (`HandledUpTo`) |
| `Webhook.HandlePost` | main.go:34-54 | on a parse failure: status 400 with the parser's message, no event handled, no call made. On success: status 200 with an empty error whatever the events returned, the calls `Calls(events)` in batch order, and one result per event as for `HandleBatch` |
| `Webhook.MixedBatchExample` | main.go:44-53 | in a batch of text, unsupported-type and image events, the first and third are answered in order, the second returns UnsupportedEventType, and the response is 200 |

## Left out

- The gin server, its routing and port binding (main.go:33-34, 55) are not modelled. They are HTTP plumbing.
- Reading the environment and constructing the client, including `os.Exit` on failure (main.go:14-31), are not modelled. They are process configuration and a foreign SDK call.
- `bot.ParseRequest` (main.go:35) is not modelled. It verifies the signature and decodes JSON inside the SDK. The model takes its result as input: an error message or a sequence of events.
- The network behind `ReplyMessage(...).Do()` (main.go:82) is not modelled. Each call's outcome is supplied by the client's `network` oracle, indexed by call number. A Go `error` is represented by its message.
- All `gologger` logging (main.go:24-25, 29, 37, 47, 84) is left out. `Webhook.HandlePost` returns the per-event errors that the loop would log.
- The text of the unsupported-message error (main.go:76) is not modelled. It depends on Go's `%+v` formatting of SDK types. The model keeps a distinct error that carries the rejected payload.
- Webhook.HandleBatch: does not model a nil `*linebot.Event` in the batch. In Go such an event would panic in the handler. The parser never produces one.
- Overlapping requests are not modelled. gin serves requests concurrently, and they all share the one client (main.go:27, 34). The model handles one request at a time: the `sent` log of `Client` and the call numbering of its `network` oracle assume no other request makes calls in between.
- Message variants other than text and image (video, audio, file, location, sticker, ...) are folded into one `OtherMessage` tagged by kind. The handler treats them all alike.
