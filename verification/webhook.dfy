/**
 * The POST handler of the webhook (main.go): it answers 400 when the SDK
 * cannot verify or decode the request, and otherwise handles every event of
 * the batch in order, carrying on past failed events, and answers 200.
 */
module Webhook {
  import opened Wrappers
  import opened Line
  import opened Dispatch

  const StatusOK: nat := 200
  const StatusBadRequest: nat := 400

  /** What the SDK's request parser returns: its error message, or the batch of events. */
  datatype ParseResult = ParseFailure(message: string) | Parsed(events: seq<Event>)

  /** The HTTP response: a status code and the JSON body's "error" field. */
  datatype Response = Response(status: nat, error: string)

  /**
   * `errs` holds what handling each of the first n events of `es` returned,
   * when reply call number k fails with `network(k)` and `base` calls were
   * made before the batch.
   */
  ghost predicate HandledUpTo(errs: seq<Option<Error>>, es: seq<Event>, n: nat,
                              network: nat -> Option<string>, base: nat)
    requires n <= |es|
  {
    && |errs| == n
    && forall i :: 0 <= i < n ==> errs[i] == Outcome(Plan(es[i]), network(base + |Calls(es[..i])|))
  }

  /**
   * Handling event n after the first n appends its calls to the log and its
   * outcome to the record, keeping both in step with the batch.
   */
  lemma BatchStep(es: seq<Event>, n: nat, network: nat -> Option<string>,
                  sent0: seq<Call>, before: seq<Call>, after: seq<Call>,
                  errs: seq<Option<Error>>, err: Option<Error>)
    requires n < |es|
    requires before == sent0 + Calls(es[..n]) && HandledUpTo(errs, es, n, network, |sent0|)
    requires after == before + CallsOf(es[n]) && err == Outcome(Plan(es[n]), network(|before|))
    ensures after == sent0 + Calls(es[..n + 1])
    ensures HandledUpTo(errs + [err], es, n + 1, network, |sent0|)
  {
    CallsOfPrefix(es, n);
  }

  /**
   * Handles every event of a parsed batch in order, carrying on past
   * failures. `errs[i]` is what handling event i returned, which the handler
   * logs and otherwise ignores: by HandledUpTo, the outcome of event i on the
   * reply call numbered by the calls made before it.
   */
  method HandleBatch(bot: Client, events: seq<Event>) returns (errs: seq<Option<Error>>)
    modifies bot
    ensures bot.sent == old(bot.sent) + Calls(events)
    ensures |errs| == |events|
    ensures HandledUpTo(errs, events, |events|, bot.network, |old(bot.sent)|)
  {
    ghost var sent0 := bot.sent;
    ghost var network := bot.network;
    errs := [];
    for idx := 0 to |events|
      invariant bot.sent == sent0 + Calls(events[..idx])
      invariant HandledUpTo(errs, events, idx, network, |sent0|)
    {
      ghost var before := bot.sent;
      var err := HandleEvent(bot, events[idx]);
      BatchStep(events, idx, network, sent0, before, bot.sent, errs, err);
      errs := errs + [err];
    }
    assert events[..|events|] == events;
  }

  /**
   * Handles one POST request: 400 with the parser's message when the request
   * cannot be parsed, in which case no event is handled; otherwise the whole
   * batch is handled and the answer is 200 with an empty error, whatever the
   * events returned.
   */
  method HandlePost(bot: Client, request: ParseResult) returns (resp: Response, errs: seq<Option<Error>>)
    modifies bot
    ensures request.ParseFailure? ==>
              resp == Response(StatusBadRequest, request.message) && errs == [] && bot.sent == old(bot.sent)
    ensures request.Parsed? ==> resp == Response(StatusOK, "")
    ensures request.Parsed? ==> bot.sent == old(bot.sent) + Calls(request.events)
    ensures request.Parsed? ==> |errs| == |request.events|
    ensures request.Parsed? ==>
              HandledUpTo(errs, request.events, |request.events|, bot.network, |old(bot.sent)|)
  {
    match request
    case ParseFailure(message) =>
      resp, errs := Response(StatusBadRequest, message), [];
    case Parsed(events) =>
      errs := HandleBatch(bot, events);
      resp := Response(StatusOK, "");
  }

  /**
   * A batch of three events whose middle one is of an unsupported type: the
   * first and third are still answered, in order, and the response is 200.
   */
  method MixedBatchExample() returns (resp: Response, errs: seq<Option<Error>>, sent: seq<Call>)
    ensures resp == Response(StatusOK, "")
    ensures errs == [None, Some(UnsupportedEventType), None]
    ensures sent == [Call("t1", "Reply: hi"), Call("t3", "Reply: http://a\nPreview: http://b")]
  {
    var bot := new Client(_ => None);
    var e1 := Event(EventTypeMessage, "t1", Some(TextMessage("hi")));
    var e2 := Event("follow", "t2", None);
    var e3 := Event(EventTypeMessage, "t3", Some(ImageMessage("http://a", "http://b")));
    resp, errs := HandlePost(bot, Parsed([e1, e2, e3]));
    sent := bot.sent;
    RejectedEventMakesNoCall([e1], e2, [e3]);
    assert Calls([e1]) == CallsOf(e1) && Calls([e3]) == CallsOf(e3);
    Replies.ComposeReplyExamples();
  }
}
