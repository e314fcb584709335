/** Versioned frames and their length-delimited transport. */
module Framing {
  import opened Wrappers
  import Incremental

  const PROTOCOL_VERSION := 2
  const MAX_FRAME_SIZE := 1024 * 1024
  const HEADER_SIZE := 7
  const LENGTH_PREFIX_SIZE := 4

  datatype ProtocolError = UnsupportedVersion(version: nat) | FrameTooLarge | InvalidMessageType | Malformed

  datatype MessageType = ClientHello | ServerHello | Control | FileTransfer | Close

  datatype Frame = Frame(version: nat, messageType: MessageType, payload: seq<byte>)

  function TypeByte(t: MessageType): byte {
    match t
    case ClientHello => 1
    case ServerHello => 2
    case Control => 3
    case FileTransfer => 4
    case Close => 5
  }

  function TypeOf(b: byte): Option<MessageType> {
    if b == 1 then Some(ClientHello)
    else if b == 2 then Some(ServerHello)
    else if b == 3 then Some(Control)
    else if b == 4 then Some(FileTransfer)
    else if b == 5 then Some(Close)
    else None
  }

  function Pow256(width: nat): (n: nat)
    ensures n > 0
  {
    if width == 0 then 1 else 256 * Pow256(width - 1)
  }

  /** Big-endian bytes of a number that fits `width` of them. */
  function Be(n: nat, width: nat): (s: seq<byte>)
    requires n < Pow256(width)
    ensures |s| == width
  {
    if width == 0 then [] else Be(n / 256, width - 1) + [n % 256]
  }

  function FromBe(s: seq<byte>): (n: nat)
    ensures n < Pow256(|s|)
  {
    if s == [] then 0 else FromBe(s[..|s| - 1]) * 256 + s[|s| - 1]
  }

  lemma {:induction false} FromBeUndoesBe(n: nat, width: nat)
    requires n < Pow256(width)
    ensures FromBe(Be(n, width)) == n
  {
    if width > 0 {
      FromBeUndoesBe(n / 256, width - 1);
      assert Be(n, width)[..width - 1] == Be(n / 256, width - 1);
    }
  }

  lemma {:induction false} BeUndoesFromBe(s: seq<byte>)
    ensures Be(FromBe(s), |s|) == s
  {
    if s != [] {
      BeUndoesFromBe(s[..|s| - 1]);
      assert FromBe(s) / 256 == FromBe(s[..|s| - 1]) && FromBe(s) % 256 == s[|s| - 1];
      assert s == s[..|s| - 1] + [s[|s| - 1]];
    }
  }

  lemma Widths()
    ensures Pow256(2) == 0x1_0000 && Pow256(4) == 0x1_0000_0000 && Pow256(8) == 0x1_0000_0000_0000_0000
  {
  }

  function Be16(n: nat): (s: seq<byte>)
    requires n < 0x1_0000
    ensures |s| == 2
  {
    Widths();
    Be(n, 2)
  }

  function Be32(n: nat): (s: seq<byte>)
    requires n < 0x1_0000_0000
    ensures |s| == 4
  {
    Widths();
    Be(n, 4)
  }

  function Be64(n: nat): (s: seq<byte>)
    requires n < 0x1_0000_0000_0000_0000
    ensures |s| == 8
  {
    Widths();
    Be(n, 8)
  }

  /** Four bytes and the number they stand for determine each other. */
  lemma Be32RoundTrip(n: nat, s: seq<byte>)
    requires n < 0x1_0000_0000 && |s| == 4
    ensures FromBe(Be32(n)) == n
    ensures FromBe(s) < 0x1_0000_0000 && Be32(FromBe(s)) == s
  {
    Widths();
    FromBeUndoesBe(n, 4);
    BeUndoesFromBe(s);
  }

  lemma Be16RoundTrip(n: nat, s: seq<byte>)
    requires n < 0x1_0000 && |s| == 2
    ensures FromBe(Be16(n)) == n
    ensures FromBe(s) < 0x1_0000 && Be16(FromBe(s)) == s
  {
    Widths();
    FromBeUndoesBe(n, 2);
    BeUndoesFromBe(s);
  }

  lemma Be64RoundTrip(n: nat, s: seq<byte>)
    requires n < 0x1_0000_0000_0000_0000 && |s| == 8
    ensures FromBe(Be64(n)) == n
    ensures FromBe(s) < 0x1_0000_0000_0000_0000 && Be64(FromBe(s)) == s
  {
    Widths();
    FromBeUndoesBe(n, 8);
    BeUndoesFromBe(s);
  }

  function Encode(f: Frame): Result<seq<byte>, ProtocolError> {
    if f.version != PROTOCOL_VERSION then Err(UnsupportedVersion(f.version))
    else if |f.payload| > MAX_FRAME_SIZE - HEADER_SIZE then Err(FrameTooLarge)
    else Ok(Be16(f.version) + [TypeByte(f.messageType)] + Be32(|f.payload|) + f.payload)
  }

  function Decode(bytes: seq<byte>): Result<Frame, ProtocolError> {
    if |bytes| > MAX_FRAME_SIZE then Err(FrameTooLarge)
    else if |bytes| < HEADER_SIZE then Err(Malformed)
    else
      var version := FromBe(bytes[0..2]);
      if version != PROTOCOL_VERSION then Err(UnsupportedVersion(version))
      else if FromBe(bytes[3..7]) != |bytes| - HEADER_SIZE then Err(Malformed)
      else
        var messageType := TypeOf(bytes[2]);
        if messageType.None? then Err(InvalidMessageType)
        else Ok(Frame(version, messageType.value, bytes[HEADER_SIZE..]))
  }

  predicate Encodable(f: Frame) {
    f.version == PROTOCOL_VERSION && |f.payload| <= MAX_FRAME_SIZE - HEADER_SIZE
  }

  /** Decoding undoes encoding, on exactly the frames that encode. */
  lemma DecodeUndoesEncode(f: Frame)
    ensures Encode(f).Ok? <==> Encodable(f)
    ensures Encode(f).Ok? ==> Decode(Encode(f).value) == Ok(f)
    ensures Encode(f).Ok? ==> |Encode(f).value| == HEADER_SIZE + |f.payload|
  {
    if Encodable(f) {
      var b := Encode(f).value;
      assert b[0..2] == Be16(f.version) && b[3..7] == Be32(|f.payload|) && b[HEADER_SIZE..] == f.payload;
      Be16RoundTrip(f.version, b[0..2]);
      Be32RoundTrip(|f.payload|, b[3..7]);
    }
  }

  /** Encoding undoes decoding: a frame has one encoding and decoding accepts nothing else. */
  lemma EncodeUndoesDecode(bytes: seq<byte>)
    ensures Decode(bytes).Ok? ==> Encode(Decode(bytes).value) == Ok(bytes)
  {
    if Decode(bytes).Ok? {
      Be16RoundTrip(0, bytes[0..2]);
      Be32RoundTrip(0, bytes[3..7]);
      var f := Decode(bytes).value;
      assert bytes == bytes[0..2] + [bytes[2]] + bytes[3..7] + bytes[HEADER_SIZE..];
      assert TypeByte(f.messageType) == bytes[2];
    }
  }

  datatype TransportError = Protocol(error: ProtocolError) | TransportFrameTooLarge

  function EncodeLengthDelimited(f: Frame): Result<seq<byte>, TransportError> {
    var encoded := Encode(f);
    if encoded.Err? then Err(Protocol(encoded.error))
    else if |encoded.value| > MAX_FRAME_SIZE then Err(TransportFrameTooLarge)
    else Ok(Be32(|encoded.value|) + encoded.value)
  }

  /** What the next frame of a buffer is, and what stays in the buffer. */
  function NextFrame(buffer: seq<byte>): (Result<Option<Frame>, TransportError>, seq<byte>) {
    if |buffer| < LENGTH_PREFIX_SIZE then (Ok(None), buffer)
    else
      var length := FromBe(buffer[..LENGTH_PREFIX_SIZE]);
      if length > MAX_FRAME_SIZE then (Err(TransportFrameTooLarge), buffer)
      else if |buffer| < LENGTH_PREFIX_SIZE + length then (Ok(None), buffer)
      else
        var frame := Decode(buffer[LENGTH_PREFIX_SIZE..LENGTH_PREFIX_SIZE + length]);
        if frame.Err? then (Err(Protocol(frame.error)), buffer)
        else (Ok(Some(frame.value)), buffer[LENGTH_PREFIX_SIZE + length..])
  }

  class FrameBuffer {
    var bytes: seq<byte>

    constructor ()
      ensures bytes == []
    {
      bytes := [];
    }

    method Fill(more: seq<byte>)
      modifies this
      ensures bytes == old(bytes) + more
    {
      bytes := bytes + more;
    }

    /** Consumed bytes leave the buffer only with a complete, valid frame. */
    method DecodeNext() returns (r: Result<Option<Frame>, TransportError>)
      modifies this
      ensures (r, bytes) == NextFrame(old(bytes))
      ensures r.Err? || r.value.None? ==> bytes == old(bytes)
      ensures r.Ok? && r.value.Some? ==>
                EncodeLengthDelimited(r.value.value).Ok? && old(bytes) == EncodeLengthDelimited(r.value.value).value + bytes
    {
      NextFrameIsAnEncoding(bytes);
      if |bytes| < LENGTH_PREFIX_SIZE { return Ok(None); }
      var length := FromBe(bytes[..LENGTH_PREFIX_SIZE]);
      if length > MAX_FRAME_SIZE { return Err(TransportFrameTooLarge); }
      if |bytes| < LENGTH_PREFIX_SIZE + length { return Ok(None); }
      var frame := Decode(bytes[LENGTH_PREFIX_SIZE..LENGTH_PREFIX_SIZE + length]);
      if frame.Err? { return Err(Protocol(frame.error)); }
      bytes := bytes[LENGTH_PREFIX_SIZE + length..];
      return Ok(Some(frame.value));
    }

    /** Calling DecodeNext until it has nothing to give. */
    method TakeAll() returns (frames: seq<Frame>)
      modifies this
      ensures (frames, bytes) == Drain(old(bytes))
    {
      frames := [];
      ghost var whole := Drain(bytes);
      assert [] + whole.0 == whole.0;
      while true
        invariant whole == (frames + Drain(bytes).0, Drain(bytes).1)
        decreases |bytes|
      {
        ghost var before, rest := frames, Drain(bytes).0;
        var r := DecodeNext();
        if r.Err? || r.value.None? {
          assert frames + [] == frames;
          return;
        }
        frames := frames + [r.value.value];
        assert before + ([r.value.value] + Drain(bytes).0) == frames + Drain(bytes).0;
      }
    }
  }

  /** A frame taken from a buffer is the buffer's beginning, in its one encoding. */
  lemma NextFrameIsAnEncoding(buffer: seq<byte>)
    ensures var (r, rest) := NextFrame(buffer);
            r.Ok? && r.value.Some? ==>
              && EncodeLengthDelimited(r.value.value).Ok? && buffer == EncodeLengthDelimited(r.value.value).value + rest
              && |rest| < |buffer|
  {
    var (r, rest) := NextFrame(buffer);
    if r.Ok? && r.value.Some? {
      var prefix, length := buffer[..LENGTH_PREFIX_SIZE], FromBe(buffer[..LENGTH_PREFIX_SIZE]);
      Be32RoundTrip(0, prefix);
      EncodeUndoesDecode(buffer[LENGTH_PREFIX_SIZE..LENGTH_PREFIX_SIZE + length]);
    }
  }

  /** All complete frames at the front of a buffer, and the bytes that stay. */
  function Drain(buffer: seq<byte>): (seq<Frame>, seq<byte>)
    decreases |buffer|
  {
    var (r, rest) := NextFrame(buffer);
    if r.Ok? && r.value.Some? then
      NextFrameIsAnEncoding(buffer);
      var (frames, tail) := Drain(rest);
      ([r.value.value] + frames, tail)
    else ([], buffer)
  }

  /** What arrives later does not change the frame at the front. */
  lemma NextFrameOfMore(a: seq<byte>, b: seq<byte>, frame: Frame, rest: seq<byte>)
    requires NextFrame(a) == (Ok(Some(frame)), rest)
    ensures NextFrame(a + b) == (Ok(Some(frame)), rest + b)
  {
    var length := FromBe(a[..LENGTH_PREFIX_SIZE]);
    assert (a + b)[..LENGTH_PREFIX_SIZE] == a[..LENGTH_PREFIX_SIZE];
    assert (a + b)[LENGTH_PREFIX_SIZE..LENGTH_PREFIX_SIZE + length] == a[LENGTH_PREFIX_SIZE..LENGTH_PREFIX_SIZE + length];
    assert (a + b)[LENGTH_PREFIX_SIZE + length..] == rest + b;
  }

  /** The first step of draining, now and with more behind it. */
  lemma DrainFirst(a: seq<byte>, b: seq<byte>) returns (first: Option<Frame>, rest: seq<byte>)
    ensures first.None? ==> Drain(a) == ([], a)
    ensures first.Some? ==>
              && |rest| < |a| && Drain(a) == ([first.value] + Drain(rest).0, Drain(rest).1)
              && Drain(a + b) == ([first.value] + Drain(rest + b).0, Drain(rest + b).1)
  {
    var r := NextFrame(a);
    rest, first := r.1, if r.0.Ok? then r.0.value else None;
    if first.Some? {
      NextFrameIsAnEncoding(a);
      NextFrameOfMore(a, b, first.value, rest);
    }
  }

  lemma Longer<T>(first: T, now: seq<T>, more: seq<T>)
    ensures [first] + (now + more) == [first] + now + more
  {
  }

  /** Draining now and later finds the same frames as draining once. */
  lemma {:induction false} DrainInTwoSteps(a: seq<byte>, b: seq<byte>)
    ensures Drain(a + b) == (Drain(a).0 + Drain(Drain(a).1 + b).0, Drain(Drain(a).1 + b).1)
    decreases |a|
  {
    var first, rest := DrainFirst(a, b);
    if first.Some? {
      DrainInTwoSteps(rest, b);
      Longer(first.value, Drain(rest).0, Drain(Drain(rest).1 + b).0);
    } else {
      assert [] + Drain(a + b).0 == Drain(a + b).0;
    }
  }

  lemma {:induction false} DrainStops(buffer: seq<byte>)
    ensures Drain(Drain(buffer).1) == ([], Drain(buffer).1)
    decreases |buffer|
  {
    var (r, rest) := NextFrame(buffer);
    if r.Ok? && r.value.Some? {
      NextFrameIsAnEncoding(buffer);
      DrainStops(rest);
    }
  }

  /** A frame's encoding, with anything behind it, is taken off whole. */
  lemma NextFrameTakesAnEncoding(f: Frame, rest: seq<byte>)
    requires Encodable(f)
    ensures EncodeLengthDelimited(f).Ok? && NextFrame(EncodeLengthDelimited(f).value + rest) == (Ok(Some(f)), rest)
  {
    DecodeUndoesEncode(f);
    var encoded := Encode(f).value;
    var buffer := Be32(|encoded|) + encoded + rest;
    Be32RoundTrip(|encoded|, buffer[..LENGTH_PREFIX_SIZE]);
    assert buffer[..LENGTH_PREFIX_SIZE] == Be32(|encoded|);
    assert buffer[LENGTH_PREFIX_SIZE..LENGTH_PREFIX_SIZE + |encoded|] == encoded;
    assert buffer[LENGTH_PREFIX_SIZE + |encoded|..] == rest;
  }

  /** An encoding cut short yields nothing and is kept. */
  lemma NextFrameWaits(f: Frame, n: nat)
    requires Encodable(f) && EncodeLengthDelimited(f).Ok? && n < |EncodeLengthDelimited(f).value|
    ensures NextFrame(EncodeLengthDelimited(f).value[..n]) == (Ok(None), EncodeLengthDelimited(f).value[..n])
  {
    DecodeUndoesEncode(f);
    var encoded := Encode(f).value;
    if n >= LENGTH_PREFIX_SIZE {
      var cut := EncodeLengthDelimited(f).value[..n];
      assert cut[..LENGTH_PREFIX_SIZE] == Be32(|encoded|);
      Be32RoundTrip(|encoded|, cut[..LENGTH_PREFIX_SIZE]);
    }
  }

  function Encoding(f: Frame): seq<byte> {
    if Encodable(f) then
      DecodeUndoesEncode(f);
      EncodeLengthDelimited(f).value
    else []
  }

  lemma DrainTakes(f: Frame, rest: seq<byte>)
    requires Encodable(f)
    ensures Drain(Encoding(f) + rest) == ([f] + Drain(rest).0, Drain(rest).1)
  {
    NextFrameTakesAnEncoding(f, rest);
  }

  lemma DrainWaits(f: Frame, cut: seq<byte>)
    requires Encodable(f) && cut < Encoding(f)
    ensures Drain(cut) == ([], cut)
  {
    NextFrameWaits(f, |cut|);
    assert cut == Encoding(f)[..|cut|];
  }

  lemma FramesAreDelimited()
    ensures Incremental.Delimits(Drain, Encoding, Encodable)
    ensures Incremental.Resumes(Drain) && Incremental.Stops(Drain)
  {
    forall f: Frame, rest: seq<byte> | Encodable(f)
      ensures Incremental.TakesWhole(Drain, Encoding, f, rest)
    {
      DrainTakes(f, rest);
    }
    forall f: Frame, cut: seq<byte> | Encodable(f) ensures Incremental.LeavesCut(Drain, Encoding, f, cut) {
      if cut < Encoding(f) { DrainWaits(f, cut); }
    }
    forall a: seq<byte>, b: seq<byte>
      ensures Drain(a + b) == (Drain(a).0 + Drain(Drain(a).1 + b).0, Drain(Drain(a).1 + b).1)
    {
      DrainInTwoSteps(a, b);
    }
    forall a: seq<byte> ensures Drain(Drain(a).1) == ([], Drain(a).1) { DrainStops(a); }
  }

  /** For every split of every byte stream, valid or not, the frames found and the bytes kept are those of the whole. */
  lemma SplitsDoNotMatter(pieces: seq<seq<byte>>)
    ensures Incremental.FeedAll(Drain, [], pieces) == Drain(Concat(pieces))
  {
    FramesAreDelimited();
    Incremental.SplitsDoNotMatter(Drain, [], pieces);
    assert [] + Concat(pieces) == Concat(pieces);
  }

  /**
   Whatever part of the encodings of a list of frames has arrived, in whatever pieces: the frames whose encodings are
   complete come out, in order, and exactly the unfinished tail is kept.
   */
  lemma FramesSurviveAnySplit(frames: seq<Frame>, pieces: seq<seq<byte>>) returns (k: nat)
    requires forall f | f in frames :: Encodable(f)
    requires Concat(pieces) <= Incremental.EncodeAll(Encoding, frames)
    ensures Incremental.Arrived(Incremental.FeedAll(Drain, [], pieces), Encoding, frames, Concat(pieces), k)
    ensures Concat(pieces) == Incremental.EncodeAll(Encoding, frames) ==>
              Incremental.FeedAll(Drain, [], pieces) == (frames, [])
  {
    FramesAreDelimited();
    k := Incremental.AnySplitArrives(Drain, Encoding, Encodable, frames, pieces);
  }
}
