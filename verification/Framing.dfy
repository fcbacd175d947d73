/** Length-prefixed frames over a pipe that takes and gives bytes in pieces of any size. */
module Framing {
  import opened Common
  import opened ByteCodec

  const MAX_MESSAGE_BYTES := 1_048_576

  predicate ValidSize(n: int) {
    0 < n <= MAX_MESSAGE_BYTES
  }

  /** `encode_frame` after the JSON encoding; None where it raises. */
  function EncodeFrame(payload: seq<Byte>): (r: Option<seq<Byte>>)
    ensures r.Some? <==> 1 <= |payload| <= 1_048_576
  {
    if ValidSize(|payload|) then Some(Little(|payload|, 4) + payload) else None
  }

  datatype Decoded = Message(payload: seq<Byte>) | SizeInvalid | EndOfStream

  /** What reading one frame from these bytes gives, and how many bytes it takes. */
  function FrameAt(stream: seq<Byte>): (r: (Decoded, nat))
    ensures r.1 <= |stream|
    ensures r.0.Message? ==> r.1 > 4
    ensures r.0.EndOfStream? ==> r.1 == |stream|
  {
    if |stream| < 4 then (EndOfStream, |stream|)
    else
      var size := FromLittle(stream[..4]);
      if !ValidSize(size) then (SizeInvalid, 4)
      else if |stream| < 4 + size then (EndOfStream, |stream|)
      else (Message(stream[4..4 + size]), 4 + size)
  }

  /** The messages read until the stream ends or a size is refused. */
  function Messages(stream: seq<Byte>): seq<seq<Byte>> {
    var (d, used) := FrameAt(stream);
    if d.Message? then [d.payload] + Messages(stream[used..]) else []
  }

  /** Why reading stopped. */
  function EndOf(stream: seq<Byte>): Decoded {
    var (d, used) := FrameAt(stream);
    if d.Message? then EndOf(stream[used..]) else d
  }

  predicate Sendable(payloads: seq<seq<Byte>>) {
    forall p :: p in payloads ==> ValidSize(|p|)
  }

  /** The bytes of a sequence of frames. */
  function Frames(payloads: seq<seq<Byte>>): seq<Byte>
    requires Sendable(payloads)
  {
    if payloads == [] then [] else EncodeFrame(payloads[0]).value + Frames(payloads[1..])
  }

  lemma FourBytesHoldTheSize()
    ensures MAX_MESSAGE_BYTES < Power(4)
  {
    assert Power(1) == 256;
    assert Power(2) == 65_536;
    assert Power(3) == 16_777_216;
  }

  /** Decoding undoes encoding, whatever follows. */
  lemma FrameRoundTrip(payload: seq<Byte>, rest: seq<Byte>)
    requires ValidSize(|payload|)
    ensures FrameAt(EncodeFrame(payload).value + rest) == (Message(payload), 4 + |payload|)
    ensures (EncodeFrame(payload).value + rest)[4 + |payload|..] == rest
  {
    var stream := EncodeFrame(payload).value + rest;
    FourBytesHoldTheSize();
    LittleRoundTrip(|payload|, 4);
    assert stream[..4] == Little(|payload|, 4);
    assert stream[4..4 + |payload|] == payload;
  }

  /** A whole conversation is read back in order, with every byte used. */
  lemma {:induction false} FramesRoundTrip(payloads: seq<seq<Byte>>)
    requires Sendable(payloads)
    ensures Messages(Frames(payloads)) == payloads && EndOf(Frames(payloads)) == EndOfStream
  {
    if payloads != [] {
      FrameRoundTrip(payloads[0], Frames(payloads[1..]));
      FramesRoundTrip(payloads[1..]);
    }
  }

  /** Different conversations are different bytes. */
  lemma FramesAreUnambiguous(a: seq<seq<Byte>>, b: seq<seq<Byte>>)
    requires Sendable(a) && Sendable(b) && Frames(a) == Frames(b)
    ensures a == b
  {
    FramesRoundTrip(a);
    FramesRoundTrip(b);
  }

  /** A frame cut anywhere is the end of the stream, not another message. */
  lemma CutFrame(payload: seq<Byte>, k: nat)
    requires ValidSize(|payload|) && k < 4 + |payload|
    ensures FrameAt(EncodeFrame(payload).value[..k]).0 == EndOfStream
  {
    var whole := EncodeFrame(payload).value;
    FourBytesHoldTheSize();
    LittleRoundTrip(|payload|, 4);
    if k >= 4 {
      assert whole[..k][..4] == Little(|payload|, 4);
    }
  }

  /** A conversation cut at any byte gives exactly the messages that are complete before the
      cut, and then the end of the stream. */
  lemma CutBehindHead(head: seq<Byte>, tail: seq<Byte>, k: nat)
    requires |head| <= k <= |head + tail|
    ensures (head + tail)[..k] == head + tail[..k - |head|]
  {
  }

  lemma {:induction false} CutGivesCompleteMessages(payloads: seq<seq<Byte>>, k: nat, n: nat)
    requires Sendable(payloads) && n < |payloads|
    requires Sendable(payloads[..n]) && Sendable(payloads[..n + 1])
    requires |Frames(payloads[..n])| <= k < |Frames(payloads[..n + 1])|
    requires k <= |Frames(payloads)|
    ensures Messages(Frames(payloads)[..k]) == payloads[..n]
    ensures EndOf(Frames(payloads)[..k]) == EndOfStream
  {
    hide Little, FrameAt;
    var first, rest := payloads[0], payloads[1..];
    var head := EncodeFrame(first).value;
    if n == 0 {
      assert payloads[..1] == [first] && Frames([first]) == head + Frames([]);
      assert Frames(payloads)[..k] == head[..k];
      CutFrame(first, k);
    } else {
      assert payloads[..n][1..] == rest[..n - 1] && payloads[..n + 1][1..] == rest[..n];
      CutBehindHead(head, Frames(rest), k);
      assert Frames(payloads) == head + Frames(rest);
      FrameRoundTrip(first, Frames(rest)[..k - |head|]);
      CutGivesCompleteMessages(rest, k - |head|, n - 1);
      assert [first] + rest[..n - 1] == payloads[..n];
    }
  }

  /** The operating system's pipe: how much each call moves is decided outside. */
  class Pipe {
    var stream: seq<Byte>

    constructor ()
      ensures stream == []
    {
      stream := [];
    }

    /** `WriteFile`: accepts some of the bytes, none when the pipe stalls. */
    method WriteFile(value: seq<Byte>, grant: nat) returns (written: nat)
      modifies this`stream
      ensures written == (if grant < |value| then grant else |value|)
      ensures stream == old(stream) + value[..written]
    {
      written := if grant < |value| then grant else |value|;
      stream := stream + value[..written];
    }

    /** `ReadFile`: gives a non-empty piece no longer than asked, or nothing at the end. */
    method ReadFile(length: nat, piece: nat) returns (chunk: seq<Byte>)
      requires length > 0
      modifies this`stream
      ensures |chunk| <= length && |chunk| <= |old(stream)|
      ensures chunk == old(stream)[..|chunk|] && stream == old(stream)[|chunk|..]
      ensures chunk == [] <==> old(stream) == []
      ensures 0 < piece <= length && piece <= |old(stream)| ==> |chunk| == piece
    {
      var n := if piece == 0 then 1 else piece;
      n := if length < n then length else n;
      n := if |stream| < n then |stream| else n;
      chunk, stream := stream[..n], stream[n..];
    }
  }

  /** How many of n bytes successive calls move until one of them stalls or is refused. */
  function Taken(n: nat, grants: seq<nat>): (m: nat)
    ensures m <= n
  {
    if n == 0 || grants == [] || grants[0] == 0 then 0
    else if n <= grants[0] then n
    else grants[0] + Taken(n - grants[0], grants[1..])
  }

  /** `_write`: the grants are what the successive calls accept; a refused or stalled write
      leaves a proper prefix behind. */
  method Write(pipe: Pipe, value: seq<Byte>, grants: seq<nat>) returns (ok: bool)
    modifies pipe`stream
    ensures pipe.stream == old(pipe.stream) + value[..Taken(|value|, grants)]
    ensures ok <==> Taken(|value|, grants) == |value|
    ensures ok ==> pipe.stream == old(pipe.stream) + value
    ensures !ok ==> exists k :: 0 <= k < |value| && pipe.stream == old(pipe.stream) + value[..k]
    ensures |grants| >= |value| && (forall g :: g in grants ==> g > 0) ==> ok
  {
    var offset, calls := 0, 0;
    while offset < |value|
      invariant offset <= |value| && calls <= |grants|
      invariant pipe.stream == old(pipe.stream) + value[..offset]
      invariant Taken(|value|, grants) == offset + Taken(|value| - offset, grants[calls..])
      invariant (forall g :: g in grants ==> g > 0) ==> calls <= offset
    {
      if calls == |grants| {
        return false;
      }
      assert grants[calls] in grants && grants[calls..][1..] == grants[calls + 1..];
      var written := pipe.WriteFile(value[offset..], grants[calls]);
      if written == 0 {
        return false;
      }
      assert value[..offset] + value[offset..][..written] == value[..offset + written];
      offset, calls := offset + written, calls + 1;
    }
    assert value[..|value|] == value;
    ok := true;
  }

  /** `_read_exact`: the pieces are what the successive calls return at most. */
  method ReadExact(pipe: Pipe, length: nat, pieces: nat -> nat) returns (r: Option<seq<Byte>>)
    modifies pipe`stream
    ensures |old(pipe.stream)| >= length ==>
      r == Some(old(pipe.stream)[..length]) && pipe.stream == old(pipe.stream)[length..]
    ensures |old(pipe.stream)| < length ==> r == None && pipe.stream == []
  {
    var chunks, remaining := [], length;
    while remaining > 0
      invariant 0 <= remaining <= length && |chunks| == length - remaining <= |old(pipe.stream)|
      invariant chunks == old(pipe.stream)[..length - remaining]
      invariant pipe.stream == old(pipe.stream)[length - remaining..]
    {
      var chunk := pipe.ReadFile(remaining, pieces(remaining));
      if chunk == [] {
        return None;
      }
      chunks := chunks + chunk;
      remaining := remaining - |chunk|;
    }
    r := Some(chunks);
  }

  /** `decode_frame`. */
  method DecodeFrame(pipe: Pipe, pieces: nat -> nat) returns (d: Decoded)
    modifies pipe`stream
    ensures d == FrameAt(old(pipe.stream)).0
    ensures pipe.stream == old(pipe.stream)[FrameAt(old(pipe.stream)).1..]
  {
    var header := ReadExact(pipe, 4, pieces);
    if header.None? {
      return EndOfStream;
    }
    var size := FromLittle(header.value);
    if size <= 0 || size > MAX_MESSAGE_BYTES {
      return SizeInvalid;
    }
    var body := ReadExact(pipe, size, pieces);
    if body.None? {
      return EndOfStream;
    }
    assert old(pipe.stream)[4..][..size] == old(pipe.stream)[4..4 + size];
    assert old(pipe.stream)[4..][size..] == old(pipe.stream)[4 + size..];
    d := Message(body.value);
  }

  /** The reader's loop over a connection. */
  method ReadAll(pipe: Pipe, pieces: nat -> nat) returns (messages: seq<seq<Byte>>, end: Decoded)
    modifies pipe`stream
    ensures messages == Messages(old(pipe.stream)) && end == EndOf(old(pipe.stream))
    ensures end.EndOfStream? ==> pipe.stream == []
  {
    messages := [];
    while true
      invariant messages + Messages(pipe.stream) == Messages(old(pipe.stream))
      invariant EndOf(pipe.stream) == EndOf(old(pipe.stream))
      decreases |pipe.stream|
    {
      var d := DecodeFrame(pipe, pieces);
      if !d.Message? {
        assert messages + [] == messages;
        end := d;
        return;
      }
      messages := messages + [d.payload];
    }
  }

  /** Every grant is positive and there are enough of them. */
  predicate Ample(payloads: seq<seq<Byte>>, grants: seq<seq<nat>>)
    requires |grants| == |payloads|
  {
    forall i :: 0 <= i < |payloads| ==> |grants[i]| >= 4 + |payloads[i]| && forall g :: g in grants[i] ==> g > 0
  }

  /** The writer's side of a conversation. */
  method SendAll(pipe: Pipe, payloads: seq<seq<Byte>>, grants: seq<seq<nat>>) returns (sent: nat)
    requires Sendable(payloads) && |grants| == |payloads| && pipe.stream == []
    modifies pipe`stream
    ensures sent <= |payloads| && (Ample(payloads, grants) ==> sent == |payloads|)
    ensures if sent == |payloads| then pipe.stream == Frames(payloads) else IsCut(payloads, sent, pipe.stream)
  {
    sent := 0;
    while sent < |payloads|
      invariant sent <= |payloads| && pipe.stream == Frames(payloads[..sent])
    {
      FramesPrefix(payloads, sent);
      FramesAppend(payloads[..sent], payloads[sent]);
      assert payloads[..sent + 1] == payloads[..sent] + [payloads[sent]];
      var ok := Write(pipe, EncodeFrame(payloads[sent]).value, grants[sent]);
      if !ok {
        return;
      }
      sent := sent + 1;
    }
    assert payloads[..|payloads|] == payloads;
  }

  /** Whatever the sizes of the pieces in either direction, what one side sends the other side
      receives; and when the writer stops early the reader sees exactly the complete messages. */
  method Converse(pipe: Pipe, payloads: seq<seq<Byte>>, grants: seq<seq<nat>>, pieces: nat -> nat)
    returns (sent: nat, received: seq<seq<Byte>>, end: Decoded)
    requires Sendable(payloads) && |grants| == |payloads| && pipe.stream == []
    modifies pipe`stream
    ensures sent <= |payloads| && received == payloads[..sent]
    ensures end == EndOfStream && pipe.stream == []
    ensures Ample(payloads, grants) ==> received == payloads
  {
    sent := SendAll(pipe, payloads, grants);
    if sent == |payloads| {
      FramesRoundTrip(payloads);
      assert payloads[..sent] == payloads;
    } else {
      CutGivesCompleteMessages(payloads, |pipe.stream|, sent);
    }
    received, end := ReadAll(pipe, pieces);
  }

  /** The stream holds the first frames and a proper part of the next. */
  ghost predicate IsCut(payloads: seq<seq<Byte>>, n: nat, stream: seq<Byte>)
    requires Sendable(payloads) && n < |payloads|
  {
    && |Frames(payloads[..n])| <= |stream| < |Frames(payloads[..n + 1])|
    && |stream| <= |Frames(payloads)| && stream == Frames(payloads)[..|stream|]
  }

  lemma {:induction false} FramesAppend(payloads: seq<seq<Byte>>, last: seq<Byte>)
    requires Sendable(payloads) && ValidSize(|last|)
    ensures Sendable(payloads + [last]) && Frames(payloads + [last]) == Frames(payloads) + EncodeFrame(last).value
  {
    hide Little;
    if payloads == [] {
      assert payloads + [last] == [last] && [last][1..] == [];
      assert Frames([last]) == EncodeFrame(last).value + Frames([]);
    } else {
      FramesAppend(payloads[1..], last);
      assert (payloads + [last])[1..] == payloads[1..] + [last];
      assert Frames(payloads + [last]) == EncodeFrame(payloads[0]).value + Frames(payloads[1..] + [last]);
    }
  }

  lemma {:induction false} FramesPrefix(payloads: seq<seq<Byte>>, n: nat)
    requires Sendable(payloads) && n < |payloads|
    ensures Sendable(payloads[..n]) && Frames(payloads[..n]) + EncodeFrame(payloads[n]).value <= Frames(payloads)
  {
    hide Little;
    if n == 0 {
      assert Frames(payloads) == EncodeFrame(payloads[0]).value + Frames(payloads[1..]);
    } else {
      assert payloads[..n][1..] == payloads[1..][..n - 1];
      FramesPrefix(payloads[1..], n - 1);
    }
  }
}
