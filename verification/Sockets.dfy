/** Nonblocking sockets: a byte stream, and a message socket that keeps the frames it could not send yet. */
module Sockets {
  import opened Wrappers

  const MAX_RELAY_BYTES := 1024 * 1024

  datatype Frame = Binary(bytes: seq<byte>) | Ping | Pong | CloseFrame | OtherFrame

  predicate Relayable(f: Frame) { f.Binary? && |f.bytes| <= MAX_RELAY_BYTES }

  /** The messages a run of frames carries. */
  function Payloads(frames: seq<Frame>): seq<seq<byte>> {
    if frames == [] then []
    else (if Relayable(frames[0]) then [frames[0].bytes] else []) + Payloads(frames[1..])
  }

  lemma {:induction false} PayloadsSplit(a: seq<Frame>, b: seq<Frame>)
    ensures Payloads(a + b) == Payloads(a) + Payloads(b)
  {
    if a == [] {
      assert a + b == b;
    } else {
      assert (a + b)[1..] == a[1..] + b;
      PayloadsSplit(a[1..], b);
    }
  }

  lemma PayloadsAppend(a: seq<Frame>, f: Frame)
    ensures Payloads(a + [f]) == if Relayable(f) then Payloads(a) + [f.bytes] else Payloads(a)
  {
    PayloadsSplit(a, [f]);
    assert Payloads([f]) == if Relayable(f) then [f.bytes] else [];
  }

  lemma {:induction false} ConcatSplit(a: seq<seq<byte>>, b: seq<seq<byte>>)
    ensures Concat(a + b) == Concat(a) + Concat(b)
  {
    if a == [] {
      assert a + b == b;
    } else {
      assert (a + b)[1..] == a[1..] + b;
      ConcatSplit(a[1..], b);
    }
  }

  /** The bytes a run of frames carries. */
  function Data(frames: seq<Frame>): seq<byte> { Concat(Payloads(frames)) }

  lemma DataSplit(a: seq<Frame>, b: seq<Frame>)
    ensures Data(a + b) == Data(a) + Data(b)
  {
    PayloadsSplit(a, b);
    ConcatSplit(Payloads(a), Payloads(b));
  }

  lemma DataAppend(a: seq<Frame>, f: Frame)
    ensures Data(a + [f]) == Data(a) + if Relayable(f) then f.bytes else []
  {
    DataSplit(a, [f]);
    PayloadsAppend([], f);
    assert [] + [f] == [f];
    if f.Binary? { assert Concat([f.bytes]) == f.bytes + Concat([]) == f.bytes; }
  }

  datatype Outcome = Done | Blocked | Broken

  /** How far one call gets: so many frames or bytes, or the connection is gone. */
  datatype Progress = Moves(most: nat) | Fails

  /**
   A message socket: frames yet to be read, frames read, frames accepted but still held, and frames on the network. A
   frame leaves `retained` only for `transmitted`, in order.
   */
  datatype Ws = Ws(inbox: seq<Frame>, received: seq<Frame>, retained: seq<Frame>, transmitted: seq<Frame>)

  /** Everything the socket has accepted for sending. */
  function Accepted(s: Ws): seq<Frame> { s.transmitted + s.retained }

  function FlushStep(s: Ws, k: Progress): (Ws, Outcome) {
    if k.Fails? then (s, Broken)
    else
      var n := Min(k.most, |s.retained|);
      (s.(transmitted := s.transmitted + s.retained[..n], retained := s.retained[n..]),
       if n == |s.retained| then Done else Blocked)
  }

  function SendStep(s: Ws, f: Frame, k: Progress): (Ws, Outcome) {
    FlushStep(s.(retained := s.retained + [f]), k)
  }

  /** Reading a ping makes the socket hold a pong; nothing says when it goes out. */
  function ReadStep(s: Ws, k: Progress): (Ws, Outcome, Option<Frame>) {
    if k.Fails? then (s, Broken, None)
    else if k.most == 0 || s.inbox == [] then (s, Blocked, None)
    else
      var f := s.inbox[0];
      (s.(inbox := s.inbox[1..], received := s.received + [f], retained := s.retained + if f.Ping? then [Pong] else []),
       Done, Some(f))
  }

  lemma FlushAccepts(s: Ws, k: Progress)
    ensures var (t, r) := FlushStep(s, k);
            Accepted(t) == Accepted(s) && s.transmitted <= t.transmitted && (r.Done? ==> t.retained == [])
  {
    if k.Moves? {
      var n := Min(k.most, |s.retained|);
      assert s.retained == s.retained[..n] + s.retained[n..];
    }
  }

  lemma SendAccepts(s: Ws, f: Frame, k: Progress)
    ensures var (t, r) := SendStep(s, f, k);
            Accepted(t) == Accepted(s) + [f] && s.transmitted <= t.transmitted && (r.Done? ==> t.retained == [])
  {
    FlushAccepts(s.(retained := s.retained + [f]), k);
    assert s.transmitted + (s.retained + [f]) == s.transmitted + s.retained + [f];
  }

  lemma ReadAccepts(s: Ws, k: Progress)
    ensures var (t, r, f) := ReadStep(s, k);
            && s.received + s.inbox == t.received + t.inbox
            && t.received == s.received + (if r.Done? then [f.value] else [])
            && Payloads(Accepted(t)) == Payloads(Accepted(s))
            && t.transmitted == s.transmitted
  {
    var (t, r, f) := ReadStep(s, k);
    assert s.received + [] == s.received;
    if r.Done? {
      assert s.inbox == [f.value] + s.inbox[1..];
      PongAddsNothing(s.transmitted, s.retained, f.value);
    }
  }

  lemma PongAddsNothing(transmitted: seq<Frame>, retained: seq<Frame>, f: Frame)
    ensures Payloads(transmitted + (retained + if f.Ping? then [Pong] else [])) == Payloads(transmitted + retained)
  {
    PayloadsAppend(transmitted + retained, Pong);
    assert transmitted + (retained + [Pong]) == transmitted + retained + [Pong];
    assert retained + [] == retained;
  }

  function Pings(frames: seq<Frame>): nat { if frames == [] then 0 else (if frames[0].Ping? then 1 else 0) + Pings(frames[1..]) }

  function Pongs(frames: seq<Frame>): nat { if frames == [] then 0 else (if frames[0].Pong? then 1 else 0) + Pongs(frames[1..]) }

  lemma {:induction false} CountsSplit(a: seq<Frame>, b: seq<Frame>)
    ensures Pings(a + b) == Pings(a) + Pings(b) && Pongs(a + b) == Pongs(a) + Pongs(b)
  {
    if a == [] {
      assert a + b == b;
    } else {
      assert (a + b)[0] == a[0] && (a + b)[1..] == a[1..] + b;
      CountsSplit(a[1..], b);
    }
  }

  lemma CountsOfOne(f: Frame)
    ensures Pings([f]) == (if f.Ping? then 1 else 0) && Pongs([f]) == if f.Pong? then 1 else 0
  {
    assert [f][1..] == [];
  }

  /** One pong has been accepted for sending for every ping read. */
  predicate Polite(s: Ws) { Pongs(Accepted(s)) == Pings(s.received) }

  lemma FlushIsPolite(s: Ws, k: Progress)
    requires Polite(s)
    ensures Polite(FlushStep(s, k).0)
  {
    FlushAccepts(s, k);
  }

  lemma SendIsPolite(s: Ws, bytes: seq<byte>, k: Progress)
    requires Polite(s)
    ensures Polite(SendStep(s, Binary(bytes), k).0)
  {
    SendAccepts(s, Binary(bytes), k);
    CountsSplit(Accepted(s), [Binary(bytes)]);
    CountsOfOne(Binary(bytes));
  }

  lemma ReadIsPolite(s: Ws, k: Progress)
    requires Polite(s)
    ensures Polite(ReadStep(s, k).0)
  {
    var (t, r, f) := ReadStep(s, k);
    if r.Done? {
      CountsSplit(s.received, [f.value]);
      CountsOfOne(f.value);
      CountsSplit(Accepted(s), [Pong]);
      CountsOfOne(Pong);
      assert s.transmitted + (s.retained + [Pong]) == Accepted(s) + [Pong];
      assert s.retained + [] == s.retained;
    }
  }

  class WebSocket {
    var inbox: seq<Frame>
    var received: seq<Frame>
    var retained: seq<Frame>
    var transmitted: seq<Frame>

    ghost function Value(): Ws reads this { Ws(inbox, received, retained, transmitted) }

    constructor (inbox: seq<Frame>)
      ensures Value() == Ws(inbox, [], [], [])
    {
      this.inbox, received, retained, transmitted := inbox, [], [], [];
    }

    method Flush(k: Progress) returns (r: Outcome)
      modifies this
      ensures (Value(), r) == FlushStep(old(Value()), k)
    {
      if k.Fails? { return Broken; }
      var n := Min(k.most, |retained|);
      r := if n == |retained| then Done else Blocked;
      transmitted, retained := transmitted + retained[..n], retained[n..];
    }

    method Send(f: Frame, k: Progress) returns (r: Outcome)
      modifies this
      ensures (Value(), r) == SendStep(old(Value()), f, k)
    {
      retained := retained + [f];
      r := Flush(k);
    }

    method Read(k: Progress) returns (r: Outcome, f: Option<Frame>)
      modifies this
      ensures (Value(), r, f) == ReadStep(old(Value()), k)
    {
      if k.Fails? { return Broken, None; }
      if k.most == 0 || inbox == [] { return Blocked, None; }
      f := Some(inbox[0]);
      inbox, received := inbox[1..], received + [f.value];
      retained := retained + if f.value.Ping? then [Pong] else [];
      r := Done;
    }
  }

  /** A byte stream: bytes yet to be read, bytes read, bytes written. The end of the stream reads as no bytes. */
  datatype Tcp = Tcp(incoming: seq<byte>, consumed: seq<byte>, written: seq<byte>)

  datatype ReadProgress = Gets(most: nat) | Ends | Waits | Errs

  function TcpReadStep(s: Tcp, space: nat, k: ReadProgress): (Tcp, Outcome, seq<byte>) {
    match k
    case Gets(most) =>
      var n := Min(Min(most, space), |s.incoming|);
      if n == 0 then (s, Blocked, [])
      else (s.(incoming := s.incoming[n..], consumed := s.consumed + s.incoming[..n]), Done, s.incoming[..n])
    case Ends => (s, Done, [])
    case Waits => (s, Blocked, [])
    case Errs => (s, Broken, [])
  }

  function TcpWriteStep(s: Tcp, bytes: seq<byte>, k: ReadProgress): (Tcp, Outcome, nat) {
    match k
    case Gets(most) =>
      var n := Min(most, |bytes|);
      (s.(written := s.written + bytes[..n]), Done, n)
    case Ends => (s, Done, 0)
    case Waits => (s, Blocked, 0)
    case Errs => (s, Broken, 0)
  }

  class TcpStream {
    var incoming: seq<byte>
    var consumed: seq<byte>
    var written: seq<byte>

    ghost function Value(): Tcp reads this { Tcp(incoming, consumed, written) }

    constructor (incoming: seq<byte>)
      ensures Value() == Tcp(incoming, [], [])
    {
      this.incoming, consumed, written := incoming, [], [];
    }

    method Read(space: nat, k: ReadProgress) returns (r: Outcome, bytes: seq<byte>)
      modifies this
      ensures (Value(), r, bytes) == TcpReadStep(old(Value()), space, k)
    {
      match k
      case Gets(most) =>
        var n := Min(Min(most, space), |incoming|);
        if n == 0 { return Blocked, []; }
        bytes := incoming[..n];
        incoming, consumed := incoming[n..], consumed + bytes;
        return Done, bytes;
      case Ends => return Done, [];
      case Waits => return Blocked, [];
      case Errs => return Broken, [];
    }

    method Write(bytes: seq<byte>, k: ReadProgress) returns (r: Outcome, n: nat)
      modifies this
      ensures (Value(), r, n) == TcpWriteStep(old(Value()), bytes, k)
    {
      match k
      case Gets(most) =>
        n := Min(most, |bytes|);
        written := written + bytes[..n];
        return Done, n;
      case Ends => return Done, 0;
      case Waits => return Blocked, 0;
      case Errs => return Broken, 0;
    }
  }
}
