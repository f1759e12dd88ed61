/**
 * Per-event handling (handleEvent, handleMessage and replyText in main.go):
 * which events are answered, with what reply call, and what each returns.
 */
module Dispatch {
  import opened Wrappers
  import opened Line
  import opened Replies

  /** The errors handling one event can return. */
  datatype Error =
    | UnsupportedEventType
      // the message switch's default branch; carries the rejected payload
    | UnsupportedMessageType(message: Option<Message>)
      // the error of the outbound reply call, passed on unchanged (as its message)
    | ReplyFailed(cause: string)

  /** One outbound reply call: a reply token and the one text message sent with it. */
  datatype Call = Call(replyToken: string, text: string)

  /** A message event whose message is a variant the handler answers. */
  predicate Replyable(e: Event) {
    e.eventType == EventTypeMessage && e.message.Some? && Supported(e.message.value)
  }

  /**
   * The reply call the message handler makes for `e`, or the error it
   * returns without calling out. It looks only at the message variant.
   */
  function MessagePlan(e: Event): (r: Result<Call, Error>)
    ensures r.Success? <==> e.message.Some? && Supported(e.message.value)
    ensures r.Success? ==> r.value.replyToken == e.replyToken && ReplyPrefix <= r.value.text
    ensures r.Failure? ==> r.error == UnsupportedMessageType(e.message)
  {
    match e.message
    case Some(m) =>
      (match ComposeReply(m)
       case Some(text) => Success(Call(e.replyToken, text))
       case None => Failure(UnsupportedMessageType(e.message)))
    case None => Failure(UnsupportedMessageType(None))
  }

  /**
   * The reply call the event handler makes for `e`, or the error it
   * returns without calling out: only message events reach the message
   * handler, every other event type is rejected.
   */
  function Plan(e: Event): (r: Result<Call, Error>)
    ensures r.Success? <==> Replyable(e)
    ensures r.Success? ==> r.value.replyToken == e.replyToken && ReplyPrefix <= r.value.text
    ensures r.Failure? ==> !r.error.ReplyFailed?
    ensures r.Failure? ==> (r.error == UnsupportedEventType <==> e.eventType != EventTypeMessage)
  {
    if e.eventType == EventTypeMessage then MessagePlan(e) else Failure(UnsupportedEventType)
  }

  /** The reply calls a plan makes: one for a composed reply, none for an error. */
  function CallsOfPlan(plan: Result<Call, Error>): (cs: seq<Call>)
    ensures |cs| <= 1
    ensures |cs| == 1 <==> plan.Success?
  {
    match plan
    case Success(call) => [call]
    case Failure(_) => []
  }

  /** The reply calls handling one event makes. */
  function CallsOf(e: Event): (cs: seq<Call>)
    ensures |cs| == (if Replyable(e) then 1 else 0)
  {
    CallsOfPlan(Plan(e))
  }

  /**
   * What a handler returns: the error of its plan when it makes no call,
   * otherwise the error of the one call it makes (None when it succeeds).
   */
  function Outcome(plan: Result<Call, Error>, sendError: Option<string>): (r: Option<Error>)
    ensures r.None? <==> plan.Success? && sendError.None?
    ensures plan.Success? && sendError.Some? ==> r == Some(ReplyFailed(sendError.value))
  {
    match plan
    case Failure(err) => Some(err)
    case Success(_) =>
      (match sendError
       case None => None
       case Some(cause) => Some(ReplyFailed(cause)))
  }

  /**
   * A handler that makes no call returns its plan's own error: the
   * unsupported event type or the unsupported message type.
   */
  lemma RejectedOutcome(plan: Result<Call, Error>, sendError: Option<string>)
    requires plan.Failure?
    ensures Outcome(plan, sendError) == Some(plan.error)
  {
  }

  /**
   * The reply calls a batch makes, in batch order: each event contributes
   * its own calls, whatever the events before it returned.
   */
  function Calls(es: seq<Event>): (cs: seq<Call>)
    ensures |cs| <= |es|
  {
    if es == [] then [] else CallsOf(es[0]) + Calls(es[1..])
  }

  /** The number of message events in `es` with a text or image message. */
  function CountReplyable(es: seq<Event>): (n: nat)
    ensures n <= |es|
  {
    if es == [] then 0
    else (if Replyable(es[0]) then 1 else 0) + CountReplyable(es[1..])
  }

  /** Handling two batches one after the other makes the calls of both, in order. */
  lemma {:induction false} CallsAppend(a: seq<Event>, b: seq<Event>)
    ensures Calls(a + b) == Calls(a) + Calls(b)
  {
    if a == [] {
      assert a + b == b;
    } else {
      assert (a + b)[1..] == a[1..] + b;
      CallsAppend(a[1..], b);
    }
  }

  /** Extending a handled prefix by one event adds that event's calls at the end. */
  lemma CallsOfPrefix(es: seq<Event>, i: nat)
    requires i < |es|
    ensures Calls(es[..i + 1]) == Calls(es[..i]) + CallsOf(es[i])
  {
    assert [es[i]][1..] == [];
    assert Calls([es[i]]) == CallsOf(es[i]);
    assert es[..i + 1] == es[..i] + [es[i]];
    CallsAppend(es[..i], [es[i]]);
  }

  /** A batch makes exactly one call per replyable event. */
  lemma {:induction false} CallsCount(es: seq<Event>)
    ensures |Calls(es)| == CountReplyable(es)
  {
    if es != [] {
      CallsCount(es[1..]);
    }
  }

  /**
   * The calls of a batch are those of the events before position i, then
   * those of event i itself, then those of the events after it: every
   * event is handled once, in its place.
   */
  lemma {:induction false} CallsAt(es: seq<Event>, i: nat)
    requires i < |es|
    ensures Calls(es) == Calls(es[..i]) + CallsOf(es[i]) + Calls(es[i + 1..])
  {
    var rest := es[i..];
    assert es == es[..i] + rest;
    CallsAppend(es[..i], rest);
    assert rest[0] == es[i] && rest[1..] == es[i + 1..];
    assert Calls(rest) == CallsOf(es[i]) + Calls(es[i + 1..]);
  }

  /** An event that is rejected makes no call and leaves its neighbours' calls as they are. */
  lemma RejectedEventMakesNoCall(before: seq<Event>, e: Event, after: seq<Event>)
    requires !Replyable(e)
    ensures Calls(before + [e] + after) == Calls(before) + Calls(after)
  {
    var es := before + [e] + after;
    assert es[..|before|] == before;
    assert es[|before|] == e;
    assert es[|before| + 1..] == after;
    CallsAt(es, |before|);
  }

  /** A text message event is answered with "Reply: " and its text, on its own reply token. */
  lemma TextMessageReply(token: string, text: string)
    ensures CallsOf(Event(EventTypeMessage, token, Some(TextMessage(text))))
         == [Call(token, "Reply: " + text)]
  {
  }

  /** An image message event is answered with both URLs, on its own reply token. */
  lemma ImageMessageReply(token: string, original: string, preview: string)
    ensures CallsOf(Event(EventTypeMessage, token, Some(ImageMessage(original, preview))))
         == [Call(token, "Reply: " + original + "\nPreview: " + preview)]
  {
  }

  /**
   * The platform client. The network is not modelled: `network(k)` is the
   * error (None for success) of the k-th reply call made through the client,
   * and `sent` records every call made so far.
   */
  class Client {
    const network: nat -> Option<string>
    var sent: seq<Call>

    constructor (network: nat -> Option<string>)
      ensures this.network == network && sent == []
    {
      this.network := network;
      sent := [];
    }

    /** One ReplyMessage(...).Do() round trip: exactly one call, whose error the network decides. */
    method ReplyMessage(call: Call) returns (err: Option<string>)
      modifies this
      ensures sent == old(sent) + [call]
      ensures err == network(|old(sent)|)
    {
      err := network(|sent|);
      sent := sent + [call];
    }
  }

  /** Sends one text message as the reply for `replyToken` and returns the call's error. */
  method ReplyText(bot: Client, replyToken: string, text: string) returns (err: Option<Error>)
    modifies bot
    ensures bot.sent == old(bot.sent) + [Call(replyToken, text)]
    ensures err.None? <==> bot.network(|old(bot.sent)|).None?
    ensures err.Some? ==> err.value == ReplyFailed(bot.network(|old(bot.sent)|).value)
  {
    var sendError := bot.ReplyMessage(Call(replyToken, text));
    match sendError
    case None => err := None;
    case Some(cause) => err := Some(ReplyFailed(cause));
  }

  /** Answers a text or image message; rejects every other variant without calling out. */
  method HandleMessage(bot: Client, e: Event) returns (err: Option<Error>)
    modifies bot
    ensures bot.sent == old(bot.sent) + CallsOfPlan(MessagePlan(e))
    ensures err == Outcome(MessagePlan(e), bot.network(|old(bot.sent)|))
  {
    match e.message
    case Some(TextMessage(text)) =>
      err := ReplyText(bot, e.replyToken, ReplyPrefix + text);
    case Some(ImageMessage(original, preview)) =>
      err := ReplyText(bot, e.replyToken, ReplyPrefix + original + PreviewSeparator + preview);
    case _ =>
      err := Some(UnsupportedMessageType(e.message));
  }

  /** Passes message events to the message handler; rejects every other event type. */
  method HandleEvent(bot: Client, e: Event) returns (err: Option<Error>)
    modifies bot
    ensures bot.sent == old(bot.sent) + CallsOf(e)
    ensures err == Outcome(Plan(e), bot.network(|old(bot.sent)|))
  {
    if e.eventType == EventTypeMessage {
      err := HandleMessage(bot, e);
    } else {
      err := Some(UnsupportedEventType);
    }
  }
}
