/**
 * Composition of the reply text that the message handler sends back
 * (handleMessage in main.go), with decoders that recover the message
 * fields from a composed reply.
 */
module Replies {
  import opened Wrappers
  import opened Line

  /** Every reply starts with this prefix. */
  const ReplyPrefix: string := "Reply: "

  /** Separates the original-content URL from the preview URL in an image reply. */
  const PreviewSeparator: string := "\nPreview: "

  /** The message variants the handler answers. */
  predicate Supported(m: Message) {
    m.TextMessage? || m.ImageMessage?
  }

  /**
   * The reply text for a message: the prefix followed by the text of a text
   * message, or by the two URLs of an image message joined by the preview
   * separator; None for every other variant.
   */
  function ComposeReply(m: Message): (r: Option<string>)
    ensures r.Some? <==> Supported(m)
    ensures r.Some? ==> ReplyPrefix <= r.value
    ensures r.Some? && m.TextMessage? ==> |r.value| == |ReplyPrefix| + |m.text|
    ensures r.Some? && m.ImageMessage? ==>
              |r.value| == |ReplyPrefix| + |m.originalContentURL| + |PreviewSeparator| + |m.previewImageURL|
  {
    match m
    case TextMessage(text) => Some(ReplyPrefix + text)
    case ImageMessage(original, preview) => Some(ReplyPrefix + original + PreviewSeparator + preview)
    case OtherMessage(_) => None
  }

  /** The text a text-message reply answers: what follows the prefix. */
  function TextOfReply(s: string): (t: Option<string>)
    ensures t.Some? <==> ReplyPrefix <= s
    ensures t.Some? ==> s == ReplyPrefix + t.value
  {
    if ReplyPrefix <= s then Some(s[|ReplyPrefix|..]) else None
  }

  /** Position of the first `c` in `s`, or |s| when there is none. */
  function IndexOf(s: string, c: char): (k: nat)
    ensures k <= |s|
    ensures forall j :: 0 <= j < k ==> s[j] != c
    ensures k < |s| ==> s[k] == c
  {
    if s == [] then 0
    else if s[0] == c then 0
    else 1 + IndexOf(s[1..], c)
  }

  /**
   * The two URLs of an image-message reply: the original-content URL runs
   * up to the first newline after the prefix, which must open the preview
   * separator; the preview URL is the rest.
   */
  function SplitImageReply(s: string): (r: Option<(string, string)>)
    ensures r.Some? ==> s == ReplyPrefix + r.value.0 + PreviewSeparator + r.value.1
    ensures r.Some? ==> '\n' !in r.value.0
  {
    if !(ReplyPrefix <= s) then None
    else
      var body := s[|ReplyPrefix|..];
      var k := IndexOf(body, '\n');
      if PreviewSeparator <= body[k..] then
        assert s == ReplyPrefix + body;
        assert body == body[..k] + PreviewSeparator + body[k..][|PreviewSeparator|..];
        Some((body[..k], body[k..][|PreviewSeparator|..]))
      else None
  }

  /** The reply to a text message gives back exactly that text. */
  lemma TextReplyRoundTrip(text: string)
    ensures TextOfReply(ComposeReply(TextMessage(text)).value) == Some(text)
  {
    assert (ReplyPrefix + text)[|ReplyPrefix|..] == text;
  }

  /** The first `c` in `a + b` is the head of `b` when `a` holds none. */
  lemma IndexOfAfterPrefix(a: string, b: string, c: char)
    requires c !in a && b != [] && b[0] == c
    ensures IndexOf(a + b, c) == |a|
  {
    assert (a + b)[|a|] == c;
  }

  /**
   * The reply to an image message gives back both URLs, provided the
   * original-content URL holds no newline (a URL never does).
   */
  lemma ImageReplyRoundTrip(original: string, preview: string)
    requires '\n' !in original
    ensures SplitImageReply(ComposeReply(ImageMessage(original, preview)).value) == Some((original, preview))
  {
    var tail := PreviewSeparator + preview;
    var body := original + tail;
    var s := ReplyPrefix + original + PreviewSeparator + preview;
    assert s == ReplyPrefix + body;
    assert s[|ReplyPrefix|..] == body;
    IndexOfAfterPrefix(original, tail, '\n');
    assert body[..|original|] == original;
    assert body[|original|..] == tail;
    assert tail[|PreviewSeparator|..] == preview;
  }

  /**
   * The newline requirement above is needed: two image messages whose URLs
   * split the separator differently receive the same reply, and so does a
   * text message containing the separator.
   */
  lemma ReplyDoesNotDetermineMessage()
    ensures ComposeReply(ImageMessage("a\nPreview: b", "c"))
         == ComposeReply(ImageMessage("a", "b\nPreview: c"))
    ensures ComposeReply(TextMessage("a\nPreview: b"))
         == ComposeReply(ImageMessage("a", "b"))
  {
    assert ReplyPrefix + "a\nPreview: b" + PreviewSeparator + "c"
        == ReplyPrefix + "a" + PreviewSeparator + "b\nPreview: c";
    assert ReplyPrefix + "a\nPreview: b" == ReplyPrefix + "a" + PreviewSeparator + "b";
  }

  /** Two concrete replies: a text message and an image message. */
  lemma ComposeReplyExamples()
    ensures ComposeReply(TextMessage("hi")) == Some("Reply: hi")
    ensures ComposeReply(ImageMessage("http://a", "http://b")) == Some("Reply: http://a\nPreview: http://b")
  {
    assert ReplyPrefix + "hi" == "Reply: hi";
    assert ReplyPrefix + "http://a" + PreviewSeparator + "http://b" == "Reply: http://a\nPreview: http://b";
  }
}
