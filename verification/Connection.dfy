/** Authenticated connections: one owner, or one reader and one writer, over a socket that may stop anywhere. */
module Connection {
  import opened Wrappers
  import opened Framing
  import opened SecureStream
  import Incremental

  /** What one socket call does. A call beyond the plan fails, as every call does once the deadline has passed. */
  datatype SocketStep = Moves(most: nat) | Interrupted | Fails

  /** How many bytes a schedule lets through before it first fails or moves nothing; interruptions are only waited out. */
  function Reach(plan: seq<SocketStep>): nat {
    if plan == [] then 0
    else
      match plan[0]
      case Moves(most) => if most == 0 then 0 else most + Reach(plan[1..])
      case Interrupted => Reach(plan[1..])
      case Fails => 0
  }

  /** What is left of a schedule once so many bytes are through; a call that was asked for less is used up by that. */
  function Rest(plan: seq<SocketStep>, count: nat): seq<SocketStep>
    decreases |plan|
  {
    if count == 0 || plan == [] then plan
    else
      match plan[0]
      case Moves(most) => Rest(plan[1..], count - Min(most, count))
      case Interrupted => Rest(plan[1..], count)
      case Fails => plan[1..]
  }

  /** The schedule lets the header of a frame through, and then its body. */
  predicate Carries(plan: seq<SocketStep>, body: nat) {
    LENGTH_PREFIX_SIZE <= Reach(plan) && body <= Reach(Rest(plan, LENGTH_PREFIX_SIZE))
  }

  /** The schedule suffices to read the next frame of a stream. */
  predicate Suffices(plan: seq<SocketStep>, wire: seq<byte>) {
    |wire| >= LENGTH_PREFIX_SIZE && Carries(plan, FromBe(wire[..LENGTH_PREFIX_SIZE]))
  }

  /** A frame is next on the stream, and the schedule suffices to read it. */
  predicate FrameComes(plan: seq<SocketStep>, wire: seq<byte>) {
    NextFrame(wire).0.Ok? && NextFrame(wire).0.value.Some? && Suffices(plan, wire)
  }

  function AfterFrame(plan: seq<SocketStep>, body: nat): seq<SocketStep> { Rest(Rest(plan, LENGTH_PREFIX_SIZE), body) }

  function EncodedSize(f: Frame): nat { if Encode(f).Ok? then |Encode(f).value| else 0 }

  /** There is a sequence number left, the text can be encrypted, and the schedule suffices to write its frame. */
  predicate TextGoes(c: Channel, a: Aead, plan: seq<SocketStep>, text: seq<byte>, encryptionFails: bool) {
    c.next < U64_MAX && !encryptionFails && Carries(plan, EncodedSize(RecordFrame(SealedRecord(a, c.sendKey, c.next, text))))
  }

  /** The next record of a stream opens, and the schedule suffices to read it. */
  predicate TextComes(c: Channel, a: Aead, plan: seq<SocketStep>, wire: seq<byte>)
    requires InRange(c)
  {
    FrameComes(plan, wire) && ReceiveOne(c, a, wire).0.Ok?
  }

  /**
   A byte stream with the record state that goes with it. `incoming` is everything that has arrived or ever will and has
   not been read; `written` is everything handed to the network.
   */
  class Link {
    const a: Aead
    const channel: SecureChannel
    var incoming: seq<byte>
    var readPlan: seq<SocketStep>
    var written: seq<byte>
    var writePlan: seq<SocketStep>
    /** What came in since `origin`, over the whole of `wire`, and what was sealed since `first`. */
    ghost const wire: seq<byte>
    ghost const origin: Channel
    ghost const first: nat
    ghost var delivered: seq<seq<byte>>
    ghost var sealed: seq<seq<byte>>

    constructor (a: Aead, channel: SecureChannel, incoming: seq<byte>, readPlan: seq<SocketStep>, writePlan: seq<SocketStep>)
      requires InRange(channel.Value()) && Lawful(a)
      ensures this.channel == channel && this.a == a && wire == incoming
      ensures Receiving() && Sending() && delivered == [] && sealed == []
      ensures first == channel.next && Expected(origin) == Expected(channel.Value())
    {
      this.a, this.channel := a, channel;
      this.incoming, this.readPlan, this.written, this.writePlan := incoming, readPlan, [], writePlan;
      wire, origin, first := incoming, Channel(channel.sendKey, channel.receiveKey, 0, channel.highest), channel.next;
      delivered, sealed := [], [];
      new;
      assert [] + Deliveries(Inbound(), a, incoming) == Deliveries(Inbound(), a, incoming);
    }

    /** The receiving half of the record state. */
    ghost function Inbound(): Channel reads channel`highest {
      Channel(channel.sendKey, channel.receiveKey, 0, channel.highest)
    }

    /** So far everything delivered, and everything still to come, is what one receiver of the whole stream delivers. */
    ghost predicate Receiving()
      reads this`incoming, this`delivered, channel`highest
    {
      && InRange(Inbound()) && InRange(origin) && origin.receiveKey == channel.receiveKey
      && Deliveries(origin, a, wire) == delivered + Deliveries(Inbound(), a, incoming)
    }

    /** After a failure too, nothing else was delivered. */
    ghost predicate Received()
      reads this`delivered, channel`highest
    {
      && InRange(Inbound()) && InRange(origin) && origin.receiveKey == channel.receiveKey
      && delivered <= Deliveries(origin, a, wire)
    }

    ghost predicate Numbered()
      reads this`sealed, channel`next
    {
      && Lawful(a) && channel.next <= U64_MAX && first + |sealed| <= channel.next
      && forall p | p in sealed :: |p| <= MAX_PLAINTEXT
    }

    /** The network holds exactly the frames of what was sealed, under consecutive sequence numbers. */
    ghost predicate Sending()
      reads this`written, this`sealed, channel`next
    {
      && Numbered() && first + |sealed| == channel.next
      && written == WireOf(a, channel.sendKey, first, sealed)
    }

    /** After a failure too, it holds nothing but a beginning of them. */
    ghost predicate Sent()
      reads this`written, this`sealed, channel`next
    {
      Numbered() && written <= WireOf(a, channel.sendKey, first, sealed)
    }

    method ReadExact(count: nat) returns (r: Option<seq<byte>>)
      modifies this`incoming, this`readPlan
      ensures r.Some? ==> |r.value| == count && old(incoming) == r.value + incoming && readPlan == Rest(old(readPlan), count)
      ensures |incoming| <= |old(incoming)| && incoming == old(incoming)[|old(incoming)| - |incoming|..]
      ensures r.Some? <==> count <= Reach(old(readPlan)) && count <= |old(incoming)|
    {
      var buffer: seq<byte> := [];
      assert old(incoming) == buffer + incoming;
      while |buffer| < count
        invariant |buffer| <= count && old(incoming) == buffer + incoming
        invariant count <= |old(incoming)| ==> (count <= Reach(old(readPlan)) <==> count - |buffer| <= Reach(readPlan))
        invariant count <= |old(incoming)| ==> Rest(old(readPlan), count) == Rest(readPlan, count - |buffer|)
        decreases |readPlan|
      {
        if readPlan == [] { return None; }
        var step := readPlan[0];
        readPlan := readPlan[1..];
        match step
        case Fails => return None;
        case Interrupted =>
        case Moves(most) =>
          var n := Min(most, Min(count - |buffer|, |incoming|));
          if n == 0 { return None; }
          buffer, incoming := buffer + incoming[..n], incoming[n..];
      }
      return Some(buffer);
    }

    method WriteAll(bytes: seq<byte>) returns (ok: bool)
      modifies this`written, this`writePlan
      ensures ok ==> written == old(written) + bytes && writePlan == Rest(old(writePlan), |bytes|)
      ensures old(written) <= written <= old(written) + bytes
      ensures ok <==> |bytes| <= Reach(old(writePlan))
    {
      var n: nat := 0;
      while n < |bytes|
        invariant n <= |bytes| && written == old(written) + bytes[..n]
        invariant |bytes| <= Reach(old(writePlan)) <==> |bytes| - n <= Reach(writePlan)
        invariant Rest(old(writePlan), |bytes|) == Rest(writePlan, |bytes| - n)
        decreases |writePlan|
      {
        if writePlan == [] { return false; }
        var step := writePlan[0];
        writePlan := writePlan[1..];
        match step
        case Fails => return false;
        case Interrupted =>
        case Moves(most) =>
          var count := Min(most, |bytes| - n);
          if count == 0 { return false; }
          assert bytes[..n] + bytes[n..n + count] == bytes[..n + count];
          written := written + bytes[n..n + count];
          n := n + count;
      }
      assert bytes[..n] == bytes;
      return true;
    }

    /** Unless the socket gives out first, a read takes exactly the next frame of the stream or reports its defect. */
    method ReadFrame() returns (r: Result<Frame, StreamError>)
      modifies this`incoming, this`readPlan
      ensures r.Ok? ==> NextFrame(old(incoming)) == (Ok(Some(r.value)), incoming)
      ensures r.Err? ==> r == Err(Io) || (r.error.BadFrame? && NextFrame(old(incoming)).0 == Err(r.error.error))
      ensures r.Ok? <==> FrameComes(old(readPlan), old(incoming))
      ensures r.Ok? ==> readPlan == AfterFrame(old(readPlan), FromBe(old(incoming)[..LENGTH_PREFIX_SIZE]))
    {
      ghost var whole := incoming;
      var prefix := ReadExact(LENGTH_PREFIX_SIZE);
      if prefix.None? { return Err(Io); }
      var length := FromBe(prefix.value);
      assert whole[..LENGTH_PREFIX_SIZE] == prefix.value;
      if length > MAX_FRAME_SIZE { return Err(BadFrame(TransportFrameTooLarge)); }
      var bytes := ReadExact(length);
      if bytes.None? { return Err(Io); }
      assert whole == prefix.value + bytes.value + incoming;
      assert whole[LENGTH_PREFIX_SIZE..LENGTH_PREFIX_SIZE + length] == bytes.value;
      assert whole[LENGTH_PREFIX_SIZE + length..] == incoming;
      var frame := Decode(bytes.value);
      if frame.Err? { return Err(BadFrame(Protocol(frame.error))); }
      return Ok(frame.value);
    }

    method WriteFrame(frame: Frame) returns (ok: bool)
      modifies this`written, this`writePlan
      ensures ok ==> Encodable(frame) && written == old(written) + Encoding(frame)
      ensures old(written) <= written <= old(written) + Encoding(frame)
      ensures ok <==> Encodable(frame) && Carries(old(writePlan), EncodedSize(frame))
    {
      DecodeUndoesEncode(frame);
      var bytes := Encode(frame);
      if bytes.Err? { return false; }
      assert Encoding(frame) == Be32(|bytes.value|) + bytes.value;
      ghost var before := written;
      ok := WriteAll(Be32(|bytes.value|));
      assert before + (Be32(|bytes.value|) + bytes.value) == before + Be32(|bytes.value|) + bytes.value;
      if ok { ok := WriteAll(bytes.value); }
    }

    /** A successful read delivers the next text of the stream; a failed one delivers nothing. */
    method ReadRecord() returns (r: Result<seq<byte>, StreamError>)
      requires Receiving() && Numbered()
      modifies this`incoming, this`readPlan, this`delivered, channel`highest
      ensures Received() && delivered == old(delivered) + (if r.Ok? then [r.value] else [])
      ensures r.Ok? ==> Receiving()
      ensures r.Ok? <==> old(TextComes(Inbound(), a, readPlan, incoming))
      ensures r.Ok? ==> (r, Inbound(), incoming) == old(ReceiveOne(Inbound(), a, incoming))
      ensures r.Ok? ==> readPlan == AfterFrame(old(readPlan), FromBe(old(incoming)[..LENGTH_PREFIX_SIZE]))
    {
      assert delivered + [] == delivered;
      r := NextText();
      if r.Ok? {
        ghost var later := Deliveries(Inbound(), a, incoming);
        assert delivered + ([r.value] + later) == (delivered + [r.value]) + later;
        delivered := delivered + [r.value];
      }
    }

    method NextText() returns (r: Result<seq<byte>, StreamError>)
      requires InRange(Inbound()) && channel.next <= U64_MAX
      modifies this`incoming, this`readPlan, channel`highest
      ensures InRange(Inbound())
      ensures r.Ok? ==> old(Deliveries(Inbound(), a, incoming)) == [r.value] + Deliveries(Inbound(), a, incoming)
      ensures r.Ok? <==> old(TextComes(Inbound(), a, readPlan, incoming))
      ensures r.Ok? ==> (r, Inbound(), incoming) == old(ReceiveOne(Inbound(), a, incoming))
      ensures r.Ok? ==> readPlan == AfterFrame(old(readPlan), FromBe(old(incoming)[..LENGTH_PREFIX_SIZE]))
    {
      ghost var inbound, whole := Inbound(), incoming;
      var frame := ReadFrame();
      if frame.Err? { return Err(frame.error); }
      r := OpenFrame(frame.value);
      if r.Ok? { FrameIsDelivered(inbound, a, whole, frame.value, incoming, r.value, Inbound()); }
    }

    method OpenFrame(frame: Frame) returns (r: Result<seq<byte>, StreamError>)
      requires InRange(channel.Value())
      modifies channel`highest
      ensures InRange(channel.Value()) && (r, Inbound()) == ReceiveFrame(old(Inbound()), a, frame)
    {
      var record := ParseRecord(frame);
      if record.None? { return Err(UnexpectedMessage); }
      var plaintext := channel.Open(a, record.value, AAD);
      return if plaintext.Err? then Err(Crypto(plaintext.error)) else Ok(plaintext.value);
    }

    /** A successful write puts one whole record on the network; a failed one a beginning of it, or nothing. */
    method WriteRecord(plaintext: seq<byte>, encryptionFails: bool) returns (r: Result<(), StreamError>)
      requires Sending() && InRange(Inbound()) && |plaintext| <= MAX_PLAINTEXT
      modifies this`written, this`writePlan, this`sealed, channel`next
      ensures Sent() && (r.Ok? ==> Sending() && sealed == old(sealed) + [plaintext])
      ensures r.Err? ==> sealed == old(sealed) || sealed == old(sealed) + [plaintext]
      ensures r.Ok? <==> old(TextGoes(channel.Value(), a, writePlan, plaintext, encryptionFails))
    {
      var record := channel.Seal(a, AAD, plaintext, encryptionFails);
      if record.Err? { return Err(Crypto(record.error)); }
      ghost var before := sealed;
      sealed := sealed + [plaintext];
      var frame := RecordFrame(record.value);
      WireOfAppends(a, channel.sendKey, first, before, plaintext, frame);
      var ok := WriteFrame(frame);
      return if ok then Ok(()) else Err(Io);
    }
  }

  /** What the network holds of a run of sealed texts. */
  ghost function WireOf(a: Aead, k: Key, from: nat, sent: seq<seq<byte>>): seq<byte>
    requires from + |sent| <= U64_MAX
  {
    Incremental.EncodeAll(Encoding, FramesOf(a, k, from, sent))
  }

  lemma FrameIsDelivered(c: Channel, a: Aead, wire: seq<byte>, frame: Frame, rest: seq<byte>, text: seq<byte>, c': Channel)
    requires InRange(c) && NextFrame(wire) == (Ok(Some(frame)), rest) && ReceiveFrame(c, a, frame) == (Ok(text), c')
    ensures InRange(c') && Deliveries(c, a, wire) == [text] + Deliveries(c', a, rest)
  {
    DrainSteps(wire);
    OpenAllSteps(c, a, frame, Drain(rest).0);
  }

  lemma {:induction false} EncodeAllAppends<T>(encode: T -> seq<byte>, items: seq<T>, item: T)
    ensures Incremental.EncodeAll(encode, items + [item]) == Incremental.EncodeAll(encode, items) + encode(item)
  {
    if items == [] {
      assert [] + [item] == [item] && encode(item) + [] == encode(item);
    } else {
      assert (items + [item])[1..] == items[1..] + [item];
      EncodeAllAppends(encode, items[1..], item);
    }
  }

  lemma {:induction false} FramesOfSnoc(a: Aead, k: Key, from: nat, sent: seq<seq<byte>>, p: seq<byte>)
    requires from + |sent| < U64_MAX
    ensures FramesOf(a, k, from, sent + [p]) == FramesOf(a, k, from, sent) + [RecordFrame(SealedRecord(a, k, from + |sent|, p))]
    decreases |sent|
  {
    if sent != [] {
      assert (sent + [p])[1..] == sent[1..] + [p];
      FramesOfSnoc(a, k, from + 1, sent[1..], p);
    }
  }

  lemma WireOfAppends(a: Aead, k: Key, from: nat, sent: seq<seq<byte>>, p: seq<byte>, frame: Frame)
    requires from + |sent| < U64_MAX && frame == RecordFrame(SealedRecord(a, k, from + |sent|, p))
    ensures WireOf(a, k, from, sent + [p]) == WireOf(a, k, from, sent) + Encoding(frame)
  {
    FramesOfSnoc(a, k, from, sent, p);
    EncodeAllAppends(Encoding, FramesOf(a, k, from, sent), frame);
  }

  // -----------------------------------------------------------------------------------------------------------------
  // Messages over records
  // -----------------------------------------------------------------------------------------------------------------

  /** Serialisation of messages; decoding accepts no trailing bytes. */
  datatype Codec<!T> = Codec(encode: T -> Option<seq<byte>>, decode: seq<byte> -> Option<T>)

  ghost predicate RoundTrips<T(!new)>(codec: Codec<T>) {
    forall m: T {:trigger codec.encode(m)} :: codec.encode(m).Some? ==> codec.decode(codec.encode(m).value) == Some(m)
  }

  function Wrap<T>(codec: Codec<T>, message: T): Result<seq<byte>, StreamError> {
    var payload := codec.encode(message);
    if payload.None? then Err(BadFrame(Protocol(Malformed)))
    else if |payload.value| > MAX_FRAME_SIZE - HEADER_SIZE then Err(TooLarge)
    else
      var bytes := Encode(Frame(PROTOCOL_VERSION, Control, payload.value));
      if bytes.Err? then Err(BadFrame(Protocol(bytes.error))) else Ok(bytes.value)
  }

  function Unwrap<T>(codec: Codec<T>, plaintext: seq<byte>): Result<T, StreamError> {
    var frame := Decode(plaintext);
    if frame.Err? then Err(BadFrame(Protocol(frame.error)))
    else if frame.value.messageType != Control then Err(UnexpectedMessage)
    else
      var message := codec.decode(frame.value.payload);
      if message.None? then Err(BadFrame(Protocol(Malformed))) else Ok(message.value)
  }

  lemma UnwrapUndoesWrap<T(!new)>(codec: Codec<T>, message: T)
    requires RoundTrips(codec) && Wrap(codec, message).Ok?
    ensures Unwrap(codec, Wrap(codec, message).value) == Ok(message)
  {
    DecodeUndoesEncode(Frame(PROTOCOL_VERSION, Control, codec.encode(message).value));
  }

  class SecureConnection {
    const link: Link
    var closed: bool

    ghost predicate Valid()
      reads this`closed, link`incoming, link`delivered, link`written, link`sealed, link.channel`next, link.channel`highest
    {
      link.Received() && link.Sent() && (!closed ==> link.Receiving() && link.Sending())
    }

    constructor (link: Link)
      requires link.Receiving() && link.Sending()
      ensures this.link == link && !closed && Valid()
    {
      this.link, closed := link, false;
      new;
      ReceivingIsReceived(link);
    }

    method Close()
      requires link.Received() && link.Sent()
      modifies this`closed
      ensures closed && Valid()
    {
      closed := true;
    }

    /** A text over the limit is refused without closing; any other failure closes the connection for good. */
    method SendBytes(plaintext: seq<byte>, encryptionFails: bool) returns (r: Result<(), StreamError>)
      requires Valid()
      modifies this`closed, link`written, link`writePlan, link`sealed, link.channel`next
      ensures Valid()
      ensures old(closed) ==> r == Err(Closed) && link.written == old(link.written)
      ensures closed <==> old(closed) || (r.Err? && |plaintext| <= MAX_PLAINTEXT)
      ensures r.Ok? ==> !old(closed) && link.sealed == old(link.sealed) + [plaintext]
      ensures |plaintext| > MAX_PLAINTEXT ==> r.Err? && link.written == old(link.written)
      ensures r.Ok? <==>
                !old(closed) && |plaintext| <= MAX_PLAINTEXT
                && old(TextGoes(link.channel.Value(), link.a, link.writePlan, plaintext, encryptionFails))
    {
      if closed { return Err(Closed); }
      if |plaintext| > MAX_PLAINTEXT { return Err(TooLarge); }
      r := link.WriteRecord(plaintext, encryptionFails);
      if r.Err? { Close(); }
    }

    method Send<T>(codec: Codec<T>, message: T, encryptionFails: bool) returns (r: Result<(), StreamError>)
      requires Valid()
      modifies this`closed, link`written, link`writePlan, link`sealed, link.channel`next
      ensures Valid() && (old(closed) ==> r.Err? && closed && link.written == old(link.written))
      ensures r.Ok? ==> !closed && Wrap(codec, message).Ok?
                        && link.sealed == old(link.sealed) + [Wrap(codec, message).value]
      ensures !old(closed) && closed ==> r.Err? && Wrap(codec, message).Ok? && |Wrap(codec, message).value| <= MAX_PLAINTEXT
      ensures r.Ok? <==>
                !old(closed) && Wrap(codec, message).Ok? && |Wrap(codec, message).value| <= MAX_PLAINTEXT
                && old(TextGoes(link.channel.Value(), link.a, link.writePlan, Wrap(codec, message).value, encryptionFails))
    {
      var plaintext := Wrap(codec, message);
      if plaintext.Err? { return Err(plaintext.error); }
      r := SendBytes(plaintext.value, encryptionFails);
    }

    method ReceiveBytes() returns (r: Result<seq<byte>, StreamError>)
      requires Valid()
      modifies this`closed, link`incoming, link`readPlan, link`delivered, link.channel`highest
      ensures Valid() && (closed <==> old(closed) || r.Err?)
      ensures old(closed) ==> r == Err(Closed) && link.incoming == old(link.incoming)
      ensures link.delivered == old(link.delivered) + if r.Ok? then [r.value] else []
      ensures r.Ok? <==> !old(closed) && old(TextComes(link.Inbound(), link.a, link.readPlan, link.incoming))
      ensures r.Ok? ==> (r, link.Inbound(), link.incoming) == old(ReceiveOne(link.Inbound(), link.a, link.incoming))
      ensures r.Ok? ==> link.readPlan == AfterFrame(old(link.readPlan), FromBe(old(link.incoming)[..LENGTH_PREFIX_SIZE]))
    {
      assert link.delivered + [] == link.delivered;
      if closed { return Err(Closed); }
      r := link.ReadRecord();
      if r.Err? { Close(); }
    }

    /** Every failure closes, so a receive begun after one reports Closed and takes nothing from the stream. */
    method Receive<T>(codec: Codec<T>) returns (r: Result<T, StreamError>)
      requires Valid()
      modifies this`closed, link`incoming, link`readPlan, link`delivered, link.channel`highest
      ensures Valid() && (closed <==> old(closed) || r.Err?)
      ensures old(closed) ==> r == Err(Closed) && link.incoming == old(link.incoming) && link.delivered == old(link.delivered)
      ensures r.Ok? ==> exists p :: link.delivered == old(link.delivered) + [p] && Unwrap(codec, p) == r
      ensures r.Ok? <==>
                !old(closed) && old(TextComes(link.Inbound(), link.a, link.readPlan, link.incoming))
                && Unwrap(codec, old(ReceiveOne(link.Inbound(), link.a, link.incoming)).0.value).Ok?
    {
      assert link.delivered + [] == link.delivered;
      var plaintext := ReceiveBytes();
      if plaintext.Err? {
        r := Err(plaintext.error);
      } else {
        r := Unwrap(codec, plaintext.value);
      }
      if r.Err? { Close(); }
    }

    /** Hands the stream and its record state to one reader and one writer; the connection itself is closed. */
    method Split(cloneFails: bool) returns (r: Result<(SecureReader, SecureWriter), StreamError>)
      requires Valid()
      modifies this`closed
      ensures Valid() && (r.Ok? <==> !old(closed) && !cloneFails) && (closed <==> old(closed) || r.Ok?)
      ensures r.Ok? ==>
                && fresh(r.value.0.state) && r.value.0.state == r.value.1.state
                && r.value.0.state.Valid() && r.value.0.state.link == link && !r.value.0.state.failed
    {
      if closed { return Err(Closed); }
      if cloneFails { return Err(Io); }
      var state := new DuplexState(link);
      closed := true;
      var reader := new SecureReader(state);
      var writer := new SecureWriter(state);
      return Ok((reader, writer));
    }
  }

  /** What the two halves share: the record state, used by each in its own direction, and the failure flag. */
  class DuplexState {
    const link: Link
    var failed: bool

    ghost predicate Valid()
      reads this`failed, link`incoming, link`delivered, link`written, link`sealed, link.channel`next, link.channel`highest
    {
      link.Received() && link.Sent() && (!failed ==> link.Receiving() && link.Sending())
    }

    constructor (link: Link)
      requires link.Receiving() && link.Sending()
      ensures this.link == link && !failed && Valid()
    {
      this.link, failed := link, false;
      new;
      ReceivingIsReceived(link);
    }

    method Fail()
      requires link.Received() && link.Sent()
      modifies this`failed
      ensures failed && Valid()
    {
      failed := true;
    }
  }

  class SecureReader {
    const state: DuplexState

    constructor (state: DuplexState)
      ensures this.state == state
    {
      this.state := state;
    }

    /** Touches only the receiving half of the state; any failure stops both halves. */
    method Receive<T>(codec: Codec<T>) returns (r: Result<T, StreamError>)
      requires state.Valid()
      modifies state`failed, state.link`incoming, state.link`readPlan, state.link`delivered, state.link.channel`highest
      ensures state.Valid() && (state.failed <==> old(state.failed) || r.Err?)
      ensures old(state.failed) ==>
                && r == Err(Closed) && state.link.incoming == old(state.link.incoming)
                && state.link.delivered == old(state.link.delivered)
      ensures r.Ok? ==> exists p :: state.link.delivered == old(state.link.delivered) + [p] && Unwrap(codec, p) == r
      ensures r.Ok? <==>
                !old(state.failed) && old(TextComes(state.link.Inbound(), state.link.a, state.link.readPlan, state.link.incoming))
                && Unwrap(codec, old(ReceiveOne(state.link.Inbound(), state.link.a, state.link.incoming)).0.value).Ok?
    {
      if state.failed { return Err(Closed); }
      var plaintext := state.link.ReadRecord();
      if plaintext.Err? {
        r := Err(plaintext.error);
      } else {
        r := Unwrap(codec, plaintext.value);
      }
      if r.Err? { state.Fail(); }
    }

    method Drop()
      requires state.Valid()
      modifies state`failed
      ensures state.failed && state.Valid()
    {
      state.Fail();
    }
  }

  class SecureWriter {
    const state: DuplexState

    constructor (state: DuplexState)
      ensures this.state == state
    {
      this.state := state;
    }

    /** Touches only the sending half of the state; unlike SecureConnection, even an oversized message stops both halves. */
    method Send<T>(codec: Codec<T>, message: T, encryptionFails: bool) returns (r: Result<(), StreamError>)
      requires state.Valid()
      modifies state`failed, state.link`written, state.link`writePlan, state.link`sealed, state.link.channel`next
      ensures state.Valid() && (state.failed <==> old(state.failed) || r.Err?)
      ensures old(state.failed) ==> r == Err(Closed) && state.link.written == old(state.link.written)
      ensures r.Ok? ==> Wrap(codec, message).Ok?
                        && state.link.sealed == old(state.link.sealed) + [Wrap(codec, message).value]
      ensures r.Ok? <==>
                !old(state.failed) && Wrap(codec, message).Ok? && |Wrap(codec, message).value| <= MAX_PLAINTEXT
                && old(TextGoes(state.link.channel.Value(), state.link.a, state.link.writePlan, Wrap(codec, message).value, encryptionFails))
    {
      if state.failed { return Err(Closed); }
      var plaintext := Wrap(codec, message);
      if plaintext.Err? {
        r := Err(plaintext.error);
      } else if |plaintext.value| > MAX_PLAINTEXT {
        r := Err(TooLarge);
      } else {
        r := state.link.WriteRecord(plaintext.value, encryptionFails);
      }
      if r.Err? { state.Fail(); }
    }

    method Drop()
      requires state.Valid()
      modifies state`failed
      ensures state.failed && state.Valid()
    {
      state.Fail();
    }
  }

  lemma ReceivingIsReceived(link: Link)
    requires link.Receiving() && link.Sending()
    ensures link.Received() && link.Sent()
  {
  }

  /**
   Whatever happened to the bytes in between and however either end failed: what one end delivered is a beginning of
   what the other sealed, and every delivered text that wraps a message yields exactly that message.
   */
  lemma DeliveredWasSealed<T(!new)>(sender: Link, receiver: Link, codec: Codec<T>, messages: seq<T>)
    requires sender.Sent() && receiver.Received() && RoundTrips(codec)
    requires sender.a == receiver.a && sender.channel.sendKey == receiver.channel.receiveKey
    requires sender.first == 0 && Expected(receiver.origin) == 0
    requires OnlySealedOpens(receiver.a, receiver.channel.receiveKey, sender.sealed, receiver.wire)
    requires |messages| == |sender.sealed|
    requires forall i | 0 <= i < |messages| :: Wrap(codec, messages[i]) == Ok(sender.sealed[i])
    ensures receiver.delivered <= sender.sealed
    ensures forall i | 0 <= i < |receiver.delivered| :: Unwrap(codec, receiver.delivered[i]) == Ok(messages[i])
  {
    DeliveriesArePrefix(receiver.origin, receiver.a, sender.sealed, receiver.wire);
    forall i | 0 <= i < |receiver.delivered| ensures Unwrap(codec, receiver.delivered[i]) == Ok(messages[i]) {
      UnwrapUndoesWrap(codec, messages[i]);
    }
  }

  /** If the bytes reach the other end as they were written, everything sealed is delivered or still to be delivered. */
  lemma UndisturbedLinkDelivers(sender: Link, receiver: Link)
    requires sender.Sending() && receiver.Receiving() && receiver.wire == sender.written
    requires sender.a == receiver.a && sender.channel.sendKey == receiver.channel.receiveKey
    requires sender.first == Expected(receiver.origin)
    ensures sender.sealed == receiver.delivered + Deliveries(receiver.Inbound(), receiver.a, receiver.incoming)
  {
    UndisturbedStreamDelivers(receiver.origin, receiver.a, sender.sealed);
  }

  // -----------------------------------------------------------------------------------------------------------------
  // Schedules that suffice
  // -----------------------------------------------------------------------------------------------------------------

  function Calls(plan: seq<SocketStep>): nat {
    if plan == [] then 0 else (if plan[0].Moves? then 1 else 0) + Calls(plan[1..])
  }

  /** No call fails or moves nothing, and there is a call for every byte; how many bytes each moves is open. */
  predicate Patient(plan: seq<SocketStep>, bytes: nat) {
    (forall step | step in plan :: !step.Fails? && (step.Moves? ==> step.most > 0)) && bytes <= Calls(plan)
  }

  lemma {:induction false} PatientReaches(plan: seq<SocketStep>, bytes: nat, count: nat)
    requires Patient(plan, bytes) && count <= bytes
    ensures bytes <= Reach(plan) && Patient(Rest(plan, count), bytes - count)
    decreases |plan|
  {
    if plan != [] {
      assert plan[0] in plan;
      var moved := if plan[0].Moves? then Min(plan[0].most, count) else 0;
      var fewer := if plan[0].Moves? && bytes > 0 then bytes - 1 else bytes;
      PatientReaches(plan[1..], fewer, 0);
      if count > 0 {
        assert Patient(plan[1..], bytes - if plan[0].Moves? then 1 else 0);
        if count - moved <= fewer { PatientReaches(plan[1..], fewer, count - moved); }
        PatientWithLess(Rest(plan[1..], count - moved), fewer - (count - moved), bytes - count);
      }
    }
  }

  lemma PatientWithLess(plan: seq<SocketStep>, bytes: int, fewer: int)
    requires 0 <= fewer <= bytes && Patient(plan, bytes)
    ensures Patient(plan, fewer)
  {
  }

  /** A patient schedule carries every frame that is there, and is as patient about what follows it. */
  lemma PatientSuffices(plan: seq<SocketStep>, wire: seq<byte>)
    requires Patient(plan, |wire|) && NextFrame(wire).0.Ok? && NextFrame(wire).0.value.Some?
    ensures FrameComes(plan, wire)
    ensures Patient(AfterFrame(plan, FromBe(wire[..LENGTH_PREFIX_SIZE])), |NextFrame(wire).1|)
  {
    var body := FromBe(wire[..LENGTH_PREFIX_SIZE]);
    PatientReaches(plan, |wire|, LENGTH_PREFIX_SIZE);
    PatientReaches(Rest(plan, LENGTH_PREFIX_SIZE), |wire| - LENGTH_PREFIX_SIZE, body);
  }

  lemma PatientCarries(plan: seq<SocketStep>, body: nat)
    requires Patient(plan, LENGTH_PREFIX_SIZE + body)
    ensures Carries(plan, body) && Patient(AfterFrame(plan, body), 0)
  {
    PatientReaches(plan, LENGTH_PREFIX_SIZE + body, LENGTH_PREFIX_SIZE);
    PatientReaches(Rest(plan, LENGTH_PREFIX_SIZE), body, body);
  }

  /** The texts that so many receives in a row return, up to the first that fails. */
  function Received(c: Channel, a: Aead, plan: seq<SocketStep>, wire: seq<byte>, calls: nat): seq<seq<byte>>
    requires InRange(c)
    decreases calls
  {
    if calls == 0 || !TextComes(c, a, plan, wire) then []
    else
      DeliveriesAreReceives(c, a, wire);
      var (r, c', rest) := ReceiveOne(c, a, wire);
      [r.value] + Received(c', a, AfterFrame(plan, FromBe(wire[..LENGTH_PREFIX_SIZE])), rest, calls - 1)
  }

  lemma OneMoreOf(text: seq<byte>, got: seq<seq<byte>>, all: seq<seq<byte>>, calls: nat)
    requires calls > 0 && got == all[..Min(calls - 1, |all|)]
    ensures [text] + got == ([text] + all)[..Min(calls, |[text] + all|)]
  {
  }

  /** The first of some receives: there is nothing left to deliver, or the next text comes. */
  lemma ReceivedSteps(c: Channel, a: Aead, plan: seq<SocketStep>, wire: seq<byte>, calls: nat)
    returns (comes: bool, text: seq<byte>, c': Channel, later: seq<SocketStep>, rest: seq<byte>)
    requires InRange(c) && Patient(plan, |wire|) && calls > 0
    ensures InRange(c') && Patient(later, |rest|)
    ensures !comes ==> Deliveries(c, a, wire) == [] && Received(c, a, plan, wire, calls) == []
    ensures comes ==> Deliveries(c, a, wire) == [text] + Deliveries(c', a, rest)
    ensures comes ==> Received(c, a, plan, wire, calls) == [text] + Received(c', a, later, rest, calls - 1)
  {
    DeliveriesAreReceives(c, a, wire);
    comes, text, c', later, rest := ReceiveOne(c, a, wire).0.Ok?, [], c, plan, wire;
    if comes {
      PatientSuffices(plan, wire);
      var r := ReceiveOne(c, a, wire);
      text, c', later, rest := r.0.value, r.1, AfterFrame(plan, FromBe(wire[..LENGTH_PREFIX_SIZE])), r.2;
    }
  }

  /** Over a patient schedule receives return every text that the stream delivers, one after the other. */
  lemma {:induction false} PatienceReceivesAll(c: Channel, a: Aead, plan: seq<SocketStep>, wire: seq<byte>, calls: nat)
    requires InRange(c) && Patient(plan, |wire|)
    ensures var all := Deliveries(c, a, wire); Received(c, a, plan, wire, calls) == all[..Min(calls, |all|)]
    decreases calls
  {
    if calls > 0 {
      var comes, text, c', later, rest := ReceivedSteps(c, a, plan, wire, calls);
      if comes {
        PatienceReceivesAll(c', a, later, rest, calls - 1);
        OneMoreOf(text, Received(c', a, later, rest, calls - 1), Deliveries(c', a, rest), calls);
      }
    }
  }

  /** So over an undisturbed link with a patient schedule the receives still to come return all that was sealed and not delivered. */
  lemma PatientLinkReceivesAll(sender: Link, receiver: Link, calls: nat)
    requires sender.Sending() && receiver.Receiving() && receiver.wire == sender.written
    requires sender.a == receiver.a && sender.channel.sendKey == receiver.channel.receiveKey
    requires sender.first == Expected(receiver.origin) && Patient(receiver.readPlan, |receiver.incoming|)
    requires calls >= |sender.sealed| - |receiver.delivered|
    ensures receiver.delivered + Received(receiver.Inbound(), receiver.a, receiver.readPlan, receiver.incoming, calls) == sender.sealed
  {
    UndisturbedLinkDelivers(sender, receiver);
    PatienceReceivesAll(receiver.Inbound(), receiver.a, receiver.readPlan, receiver.incoming, calls);
    var all := Deliveries(receiver.Inbound(), receiver.a, receiver.incoming);
    assert all[..Min(calls, |all|)] == all;
  }
}
