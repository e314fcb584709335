/** Cutting encoded pictures into bounded messages and putting them together again. */
module Fragments {
  import opened Wrappers

  const MAX_ENCODED_FRAME := 8 * 1024 * 1024
  const VIDEO_FRAGMENT := 16 * 1024
  const U32_MAX := 0xFFFF_FFFF

  /** A time stamp fits 64 signed bits. */
  type Stamp = t: int | -0x8000_0000_0000_0000 <= t < 0x8000_0000_0000_0000

  datatype Packet = Packet(timestamp: Stamp, keyframe: bool, bytes: seq<byte>)

  datatype Message =
    | Format(generation: nat)
    | Fragment(generation: nat, sequence: nat, timestamp: Stamp, keyframe: bool, offset: nat, total: nat, bytes: seq<byte>)
    | OtherMessage

  /** The two's complement reading of a time stamp. */
  function Sequence(t: Stamp): nat { if t < 0 then t + 0x1_0000_0000_0000_0000 else t }

  function Piece(generation: nat, p: Packet, offset: nat): Message
    requires offset < |p.bytes|
  {
    var end := if offset + VIDEO_FRAGMENT < |p.bytes| then offset + VIDEO_FRAGMENT else |p.bytes|;
    Fragment(generation, Sequence(p.timestamp), p.timestamp, p.keyframe, offset, |p.bytes|, p.bytes[offset..end])
  }

  /** The fragments of one packet from an offset on. */
  function Pieces(generation: nat, p: Packet, offset: nat): seq<Message>
    decreases if offset < |p.bytes| then |p.bytes| - offset else 0
  {
    if offset >= |p.bytes| then [] else [Piece(generation, p, offset)] + Pieces(generation, p, offset + VIDEO_FRAGMENT)
  }

  function AllPieces(generation: nat, packets: seq<Packet>): seq<Message> {
    if packets == [] then [] else Pieces(generation, packets[0], 0) + AllPieces(generation, packets[1..])
  }

  datatype SendError = TooLarge | WriteFailed

  class Writer {
    var sent: seq<Message>
    var budget: nat

    constructor (budget: nat)
      ensures sent == [] && this.budget == budget
    {
      sent, this.budget := [], budget;
    }

    /** Fails once the writer's budget is spent, as it does at a missed deadline or a lost connection. */
    method Send(m: Message) returns (ok: bool)
      modifies this
      ensures ok ==> sent == old(sent) + [m] && budget == old(budget) - 1
      ensures !ok ==> sent == old(sent) && budget == old(budget)
      ensures ok <==> old(budget) > 0
    {
      ok := budget > 0;
      if ok { sent, budget := sent + [m], budget - 1; }
    }

    method SendPacket(p: Packet, generation: nat) returns (r: Result<(), SendError>)
      modifies this
      ensures old(sent) <= sent <= old(sent) + Pieces(generation, p, 0)
      ensures r.Ok? ==> sent == old(sent) + Pieces(generation, p, 0) && |p.bytes| <= U32_MAX
      ensures |p.bytes| > U32_MAX ==> r == Err(TooLarge) && sent == old(sent)
      ensures r.Ok? <==> |p.bytes| <= U32_MAX && |Pieces(generation, p, 0)| <= old(budget)
      ensures r.Ok? ==> budget == old(budget) - |Pieces(generation, p, 0)|
    {
      if |p.bytes| > U32_MAX { return Err(TooLarge); }
      ghost var whole := sent + Pieces(generation, p, 0);
      var offset := 0;
      while offset < |p.bytes|
        invariant old(sent) <= sent && whole == sent + Pieces(generation, p, offset)
        invariant budget <= old(budget) && old(budget) - budget == |Pieces(generation, p, 0)| - |Pieces(generation, p, offset)|
        decreases |p.bytes| - offset
      {
        ghost var before := sent;
        var ok := Send(Piece(generation, p, offset));
        if !ok { return Err(WriteFailed); }
        assert before + ([Piece(generation, p, offset)] + Pieces(generation, p, offset + VIDEO_FRAGMENT))
            == sent + Pieces(generation, p, offset + VIDEO_FRAGMENT);
        offset := offset + VIDEO_FRAGMENT;
      }
      return Ok(());
    }

    /** Whatever stops it, what has been sent is a beginning of the fragments in order; success sends them all. */
    method SendPackets(packets: seq<Packet>, generation: nat) returns (r: Result<(), SendError>)
      modifies this
      ensures old(sent) <= sent <= old(sent) + AllPieces(generation, packets)
      ensures r.Ok? ==> sent == old(sent) + AllPieces(generation, packets)
      ensures r.Ok? <==> (forall p | p in packets :: |p.bytes| <= U32_MAX) && |AllPieces(generation, packets)| <= old(budget)
    {
      ghost var whole := sent + AllPieces(generation, packets);
      for i := 0 to |packets|
        invariant old(sent) <= sent && whole == sent + AllPieces(generation, packets[i..])
        invariant budget <= old(budget)
        invariant old(budget) - budget == |AllPieces(generation, packets)| - |AllPieces(generation, packets[i..])|
        invariant forall j | 0 <= j < i :: |packets[j].bytes| <= U32_MAX
      {
        ghost var before := sent;
        assert packets[i..][1..] == packets[i + 1..];
        assert before + (Pieces(generation, packets[i], 0) + AllPieces(generation, packets[i + 1..]))
            == before + Pieces(generation, packets[i], 0) + AllPieces(generation, packets[i + 1..]);
        r := SendPacket(packets[i], generation);
        if r.Err? { return; }
      }
      return Ok(());
    }
  }

  datatype Partial = Partial(generation: nat, sequence: nat, timestamp: Stamp, keyframe: bool, length: nat, buffer: seq<byte>)

  datatype FrameError = BadFragment

  predicate Acceptable(m: Message) {
    m.Fragment? && 0 < m.total <= MAX_ENCODED_FRAME && 0 < |m.bytes| <= VIDEO_FRAGMENT
  }

  predicate Continues(f: Partial, m: Message) {
    && m.Fragment? && f.generation == m.generation && f.sequence == m.sequence && f.timestamp == m.timestamp
    && f.keyframe == m.keyframe && f.length == m.total && m.offset == |f.buffer| && |f.buffer| + |m.bytes| <= f.length
  }

  /** One push: the outcome and the frame under assembly afterwards. */
  function PushStep(frame: Option<Partial>, m: Message): (Result<Option<Packet>, FrameError>, Option<Partial>) {
    if !Acceptable(m) || (frame.None? && m.offset != 0) then (Err(BadFragment), None)
    else
      var f := if frame.Some? then frame.value else Partial(m.generation, m.sequence, m.timestamp, m.keyframe, m.total, []);
      if !Continues(f, m) then (Err(BadFragment), None)
      else
        var buffer := f.buffer + m.bytes;
        if |buffer| != f.length then (Ok(None), Some(f.(buffer := buffer)))
        else (Ok(Some(Packet(f.timestamp, f.keyframe, buffer))), None)
  }

  /** What is held is a proper beginning of a frame of bounded size. */
  predicate Bounded(frame: Option<Partial>) {
    frame.Some? ==> 0 < |frame.value.buffer| < frame.value.length <= MAX_ENCODED_FRAME
  }

  class Assembler {
    var frame: Option<Partial>

    constructor ()
      ensures frame == None
    {
      frame := None;
    }

    method Clear()
      modifies this
      ensures frame == None
    {
      frame := None;
    }

    /** Any error leaves nothing under assembly. */
    method Push(m: Message) returns (r: Result<Option<Packet>, FrameError>)
      modifies this
      ensures (r, frame) == PushStep(old(frame), m)
      ensures old(Bounded(frame)) ==> Bounded(frame)
      ensures r.Err? ==> frame == None
    {
      r := PushInner(m);
      if r.Err? { Clear(); }
    }

    method PushInner(m: Message) returns (r: Result<Option<Packet>, FrameError>)
      modifies this
      ensures r == PushStep(old(frame), m).0 && (r.Ok? ==> frame == PushStep(old(frame), m).1)
    {
      if !Acceptable(m) { return Err(BadFragment); }
      if frame.None? {
        if m.offset != 0 { return Err(BadFragment); }
        frame := Some(Partial(m.generation, m.sequence, m.timestamp, m.keyframe, m.total, []));
      }
      if !Continues(frame.value, m) { return Err(BadFragment); }
      frame := Some(frame.value.(buffer := frame.value.buffer + m.bytes));
      if |frame.value.buffer| != frame.value.length { return Ok(None); }
      var packet := Packet(frame.value.timestamp, frame.value.keyframe, frame.value.buffer);
      frame := None;
      return Ok(Some(packet));
    }
  }

  /** For any message at all: the held buffer stays below its total, errors clear it, and what comes out has a legal size. */
  lemma PushIsBounded(frame: Option<Partial>, m: Message)
    requires Bounded(frame)
    ensures var (r, after) := PushStep(frame, m);
            && Bounded(after) && (r.Err? || r.value.Some? ==> after == None)
            && (r.Ok? && r.value.Some? ==> 1 <= |r.value.value.bytes| <= MAX_ENCODED_FRAME)
  {
  }

  // -----------------------------------------------------------------------------------------------------------------
  // A whole session
  // -----------------------------------------------------------------------------------------------------------------

  datatype Delivery = Delivery(generation: nat, packet: Packet)

  /** The viewer's side: a format, the frame under assembly, what it has decoded, and whether it still runs. */
  datatype View = View(format: Option<nat>, frame: Option<Partial>, out: seq<Delivery>, ok: bool)

  function ViewStep(v: View, m: Message): View {
    if !v.ok then v
    else
      match m
      case Format(generation) => v.(format := Some(generation), frame := None)
      case Fragment(_, _, _, _, _, _, _) =>
        var (r, frame) := PushStep(v.frame, m);
        if r.Err? || (r.value.Some? && v.format.None?) then v.(frame := frame, ok := false)
        else if r.value.None? then v.(frame := frame)
        else v.(frame := frame, out := v.out + [Delivery(v.format.value, r.value.value)])
      case OtherMessage => v
  }

  function ViewAll(v: View, stream: seq<Message>): View
    decreases |stream|
  {
    if stream == [] then v else ViewAll(ViewStep(v, stream[0]), stream[1..])
  }

  lemma {:induction false} ViewInSteps(v: View, a: seq<Message>, b: seq<Message>)
    ensures ViewAll(v, a + b) == ViewAll(ViewAll(v, a), b)
    decreases |a|
  {
    if a == [] {
      assert a + b == b;
    } else {
      assert (a + b)[1..] == a[1..] + b;
      ViewInSteps(ViewStep(v, a[0]), a[1..], b);
    }
  }

  lemma {:induction false} ViewOnlyAdds(v: View, stream: seq<Message>)
    ensures v.out <= ViewAll(v, stream).out && (!v.ok ==> ViewAll(v, stream) == v)
    decreases |stream|
  {
    if stream != [] { ViewOnlyAdds(ViewStep(v, stream[0]), stream[1..]); }
  }

  /** The frame under assembly once the bytes before an offset have arrived. */
  function Begun(generation: nat, p: Packet, offset: nat): Option<Partial>
    requires offset <= |p.bytes|
  {
    if offset == 0 then None
    else Some(Partial(generation, Sequence(p.timestamp), p.timestamp, p.keyframe, |p.bytes|, p.bytes[..offset]))
  }

  lemma PieceArrives(generation: nat, p: Packet, offset: nat)
    requires offset < |p.bytes| <= MAX_ENCODED_FRAME
    ensures PushStep(Begun(generation, p, offset), Piece(generation, p, offset))
            == if offset + VIDEO_FRAGMENT < |p.bytes| then (Ok(None), Begun(generation, p, offset + VIDEO_FRAGMENT)) else (Ok(Some(p)), None)
  {
    var end := if offset + VIDEO_FRAGMENT < |p.bytes| then offset + VIDEO_FRAGMENT else |p.bytes|;
    assert p.bytes[..offset] + p.bytes[offset..end] == p.bytes[..end];
    assert p.bytes[..0] == [] && p.bytes[..|p.bytes|] == p.bytes;
  }

  lemma {:induction false} PacketArrives(v: View, generation: nat, p: Packet, offset: nat)
    requires v.ok && v.format.Some? && offset < |p.bytes| <= MAX_ENCODED_FRAME && v.frame == Begun(generation, p, offset)
    ensures ViewAll(v, Pieces(generation, p, offset)) == v.(frame := None, out := v.out + [Delivery(v.format.value, p)])
    decreases |p.bytes| - offset
  {
    PieceArrives(generation, p, offset);
    var later := Pieces(generation, p, offset + VIDEO_FRAGMENT);
    var next := ViewStep(v, Piece(generation, p, offset));
    assert Pieces(generation, p, offset)[1..] == later;
    if offset + VIDEO_FRAGMENT < |p.bytes| {
      PacketArrives(next, generation, p, offset + VIDEO_FRAGMENT);
    }
  }

  predicate Deliverable(p: Packet) { |p.bytes| <= MAX_ENCODED_FRAME }

  /** What a run of packets should deliver: every one of them, except that an empty packet has no fragment to send. */
  function Expected(generation: nat, packets: seq<Packet>): seq<Delivery> {
    if packets == [] then []
    else (if packets[0].bytes == [] then [] else [Delivery(generation, packets[0])]) + Expected(generation, packets[1..])
  }

  predicate Clean(v: View) { v.ok && v.frame == None }

  lemma OnePacketArrives(v: View, generation: nat, p: Packet, rest: seq<Message>) returns (w: View)
    requires Clean(v) && v.format == Some(generation) && Deliverable(p)
    ensures w == v.(out := v.out + if p.bytes == [] then [] else [Delivery(generation, p)])
    ensures ViewAll(v, Pieces(generation, p, 0) + rest) == ViewAll(w, rest)
  {
    w := v.(out := v.out + if p.bytes == [] then [] else [Delivery(generation, p)]);
    ViewInSteps(v, Pieces(generation, p, 0), rest);
    if p.bytes != [] {
      PacketArrives(v, generation, p, 0);
    } else {
      assert v.out + [] == v.out;
    }
  }

  lemma {:induction false} PacketsArrive(v: View, generation: nat, packets: seq<Packet>)
    requires Clean(v) && v.format == Some(generation) && forall p | p in packets :: Deliverable(p)
    ensures ViewAll(v, AllPieces(generation, packets)) == v.(out := v.out + Expected(generation, packets))
    decreases |packets|
  {
    if packets != [] {
      var p := packets[0];
      assert Deliverable(p);
      var w := OnePacketArrives(v, generation, p, AllPieces(generation, packets[1..]));
      PacketsArrive(w, generation, packets[1..]);
      var first := if p.bytes == [] then [] else [Delivery(generation, p)];
      assert v.out + (first + Expected(generation, packets[1..])) == v.out + first + Expected(generation, packets[1..]);
    }
  }

  /** A generation's format and the packets sent under it. */
  datatype Section = Section(generation: nat, packets: seq<Packet>)

  function Stream(sections: seq<Section>): seq<Message> {
    if sections == [] then []
    else [Format(sections[0].generation)] + AllPieces(sections[0].generation, sections[0].packets) + Stream(sections[1..])
  }

  function ExpectedAll(sections: seq<Section>): seq<Delivery> {
    if sections == [] then [] else Expected(sections[0].generation, sections[0].packets) + ExpectedAll(sections[1..])
  }

  const FRESH := View(None, None, [], true)

  predicate AllDeliverable(sections: seq<Section>) {
    forall s | s in sections :: forall p | p in s.packets :: Deliverable(p)
  }

  lemma SectionArrives(v: View, s: Section, rest: seq<Message>) returns (w: View)
    requires Clean(v) && forall p | p in s.packets :: Deliverable(p)
    ensures Clean(w) && w.out == v.out + Expected(s.generation, s.packets)
    ensures ViewAll(v, [Format(s.generation)] + AllPieces(s.generation, s.packets) + rest) == ViewAll(w, rest)
  {
    var started := v.(format := Some(s.generation), frame := None);
    var body := AllPieces(s.generation, s.packets);
    w := started.(out := v.out + Expected(s.generation, s.packets));
    ViewInSteps(v, [Format(s.generation)] + body, rest);
    ViewInSteps(v, [Format(s.generation)], body);
    assert ViewAll(v, [Format(s.generation)]) == started;
    PacketsArrive(started, s.generation, s.packets);
  }

  lemma {:induction false} SectionsArrive(v: View, sections: seq<Section>)
    requires Clean(v) && AllDeliverable(sections)
    ensures Clean(ViewAll(v, Stream(sections))) && ViewAll(v, Stream(sections)).out == v.out + ExpectedAll(sections)
    decreases |sections|
  {
    if sections != [] {
      var first, later := Expected(sections[0].generation, sections[0].packets), ExpectedAll(sections[1..]);
      var w := SectionArrives(v, sections[0], Stream(sections[1..]));
      SectionsArrive(w, sections[1..]);
      assert v.out + (first + later) == v.out + first + later;
    }
  }

  /** A packet over the limit ends the session before any part of it is delivered. */
  lemma OversizedPacketStops(v: View, generation: nat, p: Packet, rest: seq<Message>)
    requires Clean(v) && !Deliverable(p)
    ensures var w := ViewAll(v, Pieces(generation, p, 0) + rest); !w.ok && w.out == v.out
  {
    var first := Piece(generation, p, 0);
    var stream := Pieces(generation, p, 0) + rest;
    assert stream[0] == first;
    ViewOnlyAdds(ViewStep(v, first), stream[1..]);
  }

  lemma {:induction false} OversizedAmongPackets(v: View, generation: nat, packets: seq<Packet>, rest: seq<Message>)
    requires Clean(v) && v.format == Some(generation) && exists p :: p in packets && !Deliverable(p)
    ensures !ViewAll(v, AllPieces(generation, packets) + rest).ok
    decreases |packets|
  {
    var p, later := packets[0], AllPieces(generation, packets[1..]);
    assert AllPieces(generation, packets) + rest == Pieces(generation, p, 0) + (later + rest);
    if !Deliverable(p) {
      OversizedPacketStops(v, generation, p, later + rest);
    } else {
      PacketsArrive(v, generation, [p]);
      assert AllPieces(generation, [p]) == Pieces(generation, p, 0) + [] == Pieces(generation, p, 0);
      ViewInSteps(v, Pieces(generation, p, 0), later + rest);
      OversizedAmongPackets(v.(out := v.out + Expected(generation, [p])), generation, packets[1..], rest);
    }
  }

  lemma {:induction false} OversizedStops(v: View, sections: seq<Section>)
    requires Clean(v) && !AllDeliverable(sections)
    ensures !ViewAll(v, Stream(sections)).ok
    decreases |sections|
  {
    var s, later := sections[0], Stream(sections[1..]);
    var started := v.(format := Some(s.generation), frame := None);
    var body := AllPieces(s.generation, s.packets);
    assert Stream(sections) == [Format(s.generation)] + (body + later);
    ViewInSteps(v, [Format(s.generation)], body + later);
    assert ViewAll(v, [Format(s.generation)]) == started;
    if p :| p in s.packets && !Deliverable(p) {
      OversizedAmongPackets(started, s.generation, s.packets, later);
    } else {
      ViewInSteps(started, body, later);
      PacketsArrive(started, s.generation, s.packets);
      assert !AllDeliverable(sections[1..]);
      OversizedStops(started.(out := v.out + Expected(s.generation, s.packets)), sections[1..]);
    }
  }

  /** The formats and fragments of a stream, without the messages that may come between them. */
  function Pictures(stream: seq<Message>): seq<Message> {
    if stream == [] then [] else (if stream[0].OtherMessage? then [] else [stream[0]]) + Pictures(stream[1..])
  }

  /** Telemetry, cursors and pongs leave the assembly alone, wherever they come. */
  lemma {:induction false} OthersAreIgnored(v: View, stream: seq<Message>)
    ensures ViewAll(v, stream) == ViewAll(v, Pictures(stream))
    decreases |stream|
  {
    if stream != [] {
      OthersAreIgnored(ViewStep(v, stream[0]), stream[1..]);
      var rest := Pictures(stream[1..]);
      assert Pictures(stream) == if stream[0].OtherMessage? then rest else [stream[0]] + rest;
    }
  }

  /**
   Over a session of any formats and packets, with any other messages between any two, the viewer gets exactly the packets,
   in order, each under its own format, if and only if every packet is within the size limit.
   */
  lemma SessionDeliversExactly(sections: seq<Section>, stream: seq<Message>)
    requires Pictures(stream) == Stream(sections)
    ensures ViewAll(FRESH, stream).ok <==> AllDeliverable(sections)
    ensures AllDeliverable(sections) ==> ViewAll(FRESH, stream).out == ExpectedAll(sections)
  {
    OthersAreIgnored(FRESH, stream);
    if AllDeliverable(sections) {
      SectionsArrive(FRESH, sections);
      assert [] + ExpectedAll(sections) == ExpectedAll(sections);
    } else {
      OversizedStops(FRESH, sections);
    }
  }

  /** A session cut after any message has delivered a beginning of the packets, and never a part of one. */
  lemma CutSessionDeliversPrefix(sections: seq<Section>, stream: seq<Message>, n: nat)
    requires AllDeliverable(sections) && Pictures(stream) == Stream(sections) && n <= |stream|
    ensures var w := ViewAll(FRESH, stream[..n]); w.ok && w.out <= ExpectedAll(sections)
  {
    SessionDeliversExactly(sections, stream);
    var head, tail := stream[..n], stream[n..];
    assert stream == head + tail;
    ViewInSteps(FRESH, head, tail);
    ViewOnlyAdds(ViewAll(FRESH, head), tail);
  }
}
