/** Octet-count framing (crates/core/src/framing.rs, `frame`) and the receiver it
    is meant for: MSG-LEN SP SYSLOG-MSG, section 5.4 of RFC 6012. */
module Framing {
  import opened Octets

  function FrameOf(message: seq<byte>): seq<byte> {
    Digits(|message|) + [SP] + message
  }

  method Frame(message: seq<byte>) returns (out: seq<byte>)
    ensures out == FrameOf(message)
    ensures Deframe(out) == Some([message])
  {
    out := Digits(|message|);
    out := out + [SP];
    out := out + message;
    DeframeStep(message, []);
    assert out == FrameOf(message) + [] && Deframe([]) == Some([]);
    assert [message] + [] == [message];
  }

  // ---------- the receiver ----------

  /** Reads one frame off the front: digits up to the first space, then that many octets. */
  function ReadFrame(stream: seq<byte>): (r: Option<(seq<byte>, seq<byte>)>)
    ensures r.Some? ==> |r.value.1| < |stream|
  {
    match IndexOf(stream, {SP})
    case None => None
    case Some(n) =>
      var length, body := stream[..n], stream[n + 1..];
      if n == 0 || !AllDigits(length) || Value(length) > |body| then None
      else Some((body[..Value(length)], body[Value(length)..]))
  }

  /** The messages of a whole stream, or nothing when it is not a sequence of frames. */
  function Deframe(stream: seq<byte>): Option<seq<seq<byte>>>
    decreases |stream|
  {
    if stream == [] then Some([])
    else match ReadFrame(stream)
      case None => None
      case Some((message, rest)) =>
        match Deframe(rest)
        case None => None
        case Some(messages) => Some([message] + messages)
  }

  function Stream(messages: seq<seq<byte>>): seq<byte> {
    if messages == [] then [] else FrameOf(messages[0]) + Stream(messages[1..])
  }

  lemma ReadBack(message: seq<byte>, tail: seq<byte>)
    ensures ReadFrame(FrameOf(message) + tail) == Some((message, tail))
  {
    var length, stream := Digits(|message|), FrameOf(message) + tail;
    assert stream == length + [SP] + (message + tail);
    IndexOfAfter(length, SP, message + tail, {SP});
    ValueOfDigits(|message|);
    assert stream[..|length|] == length && stream[|length| + 1..] == message + tail;
  }

  lemma DeframeStep(message: seq<byte>, tail: seq<byte>)
    ensures Deframe(FrameOf(message) + tail)
         == match Deframe(tail) case None => None case Some(ms) => Some([message] + ms)
  {
    ReadBack(message, tail);
  }

  /** Any concatenation of frames decodes to exactly the messages it was made of. */
  lemma {:induction false} StreamRoundTrip(messages: seq<seq<byte>>)
    ensures Deframe(Stream(messages)) == Some(messages)
  {
    if messages != [] {
      StreamRoundTrip(messages[1..]);
      DeframeStep(messages[0], Stream(messages[1..]));
      assert messages == [messages[0]] + messages[1..];
    }
  }

  /** Frames are a prefix code: a frame that starts another frame is that frame, and
      equal frames carry equal messages. */
  lemma PrefixFree(a: seq<byte>, b: seq<byte>)
    requires FrameOf(a) <= FrameOf(b)
    ensures a == b
  {
    var tail := FrameOf(b)[|FrameOf(a)|..];
    assert FrameOf(b) == FrameOf(a) + tail;
    ReadBack(a, tail);
    ReadBack(b, []);
    assert FrameOf(b) + [] == FrameOf(b);
  }

  /** MSG-LEN of a nonempty message starts with a nonzero digit. */
  lemma NoLeadingZero(message: seq<byte>)
    ensures FrameOf(message)[0] == 48 <==> message == []
  {
  }

  const MAX_MESSAGE_BYTES := 16378
  const MAX_RECORD := 16384

  /** A ceiling on message size keeps every frame within one record exactly when it is
      at most 16378, the largest value the configuration accepts. */
  lemma CeilingIsExact(ceiling: nat)
    ensures (forall message: seq<byte> | |message| <= ceiling :: |FrameOf(message)| <= MAX_RECORD)
       <==> ceiling <= MAX_MESSAGE_BYTES
  {
    assert Pow10(5) == 100000 && Pow10(4) == 10000;
    if ceiling <= MAX_MESSAGE_BYTES {
      forall message: seq<byte> | |message| <= ceiling
        ensures |FrameOf(message)| <= MAX_RECORD
      {
        DigitCount(|message|, 5);
      }
    } else {
      var message: seq<byte> := seq(MAX_MESSAGE_BYTES + 1, _ => 0);
      DigitCount(|message|, 4);
      assert |FrameOf(message)| > MAX_RECORD;
    }
  }
}
