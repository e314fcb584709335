/** The two halves of a split connection in small steps: one thread reads, one writes, and they meet in a flag and a lock. */
module Duplex {
  import opened Wrappers
  import opened Framing
  import opened SecureStream
  import Connection

  /** What does not change: the cipher, which texts unwrap to a message, and where and on what the halves began. */
  datatype Setup = Setup(a: Aead, accepts: seq<byte> -> bool, wire: seq<byte>, origin: Channel, first: nat)

  datatype ReaderPc = Rests | Reads | Opens(frame: Frame) | Judges(text: seq<byte>) | FailsReading | Dropped

  datatype WriterPc = Waits | Seals(text: seq<byte>) | Writes(rest: seq<byte>) | FailsWriting | Gone

  /** `plain` and `sealed` are all texts that came out of and went into records; `returned` those the reader handed on. */
  datatype State = State(channel: Channel, failed: bool, reader: ReaderPc, incoming: seq<byte>, plain: seq<seq<byte>>,
                         returned: seq<seq<byte>>, writer: WriterPc, written: seq<byte>, sealed: seq<seq<byte>>)

  ghost predicate Initial(c: Setup, s: State) {
    && s == State(c.origin, false, Rests, c.wire, [], [], Waits, [], [])
    && InRange(c.origin) && Lawful(c.a) && c.first == c.origin.next
  }

  // -----------------------------------------------------------------------------------------------------------------
  // The steps
  // -----------------------------------------------------------------------------------------------------------------

  datatype ReaderMove = BeginReceive | TakeFrame(comes: bool, lost: nat) | OpenRecord | Judge

  datatype WriterMove = BeginSend(text: Option<seq<byte>>) | SealRecord(fails: bool) | WriteSome(most: nat, fails: bool)

  datatype Event = ReaderMoves(read: ReaderMove) | WriterMoves(write: WriterMove) | ReaderFails | WriterFails | DropReader | DropWriter

  /** The flag is looked at first. A frame that does not come, or is no frame, may cost any number of bytes. */
  function ReaderStep(c: Setup, s: State, k: ReaderMove): State
    requires InRange(s.channel)
  {
    match k
    case BeginReceive => if !s.reader.Rests? then s else s.(reader := if s.failed then FailsReading else Reads)
    case TakeFrame(comes, lost) =>
      if !s.reader.Reads? then s
      else
        var (frame, rest) := NextFrame(s.incoming);
        if comes && frame.Ok? && frame.value.Some? then s.(reader := Opens(frame.value.value), incoming := rest)
        else s.(reader := FailsReading, incoming := s.incoming[Min(lost, |s.incoming|)..])
    case OpenRecord =>
      if !s.reader.Opens? then s
      else
        var (r, channel) := ReceiveFrame(s.channel, c.a, s.reader.frame);
        if r.Err? then s.(reader := FailsReading)
        else s.(channel := channel, reader := Judges(r.value), plain := s.plain + [r.value])
    case Judge =>
      if !s.reader.Judges? then s
      else if c.accepts(s.reader.text) then s.(reader := Rests, returned := s.returned + [s.reader.text])
      else s.(reader := FailsReading)
  }

  /** A message that cannot be wrapped is no text. The record leaves the lock before its bytes go out, some at a time. */
  function WriterStep(c: Setup, s: State, k: WriterMove): State
    requires InRange(s.channel)
  {
    match k
    case BeginSend(text) =>
      if !s.writer.Waits? then s
      else s.(writer := if s.failed || text.None? || |text.value| > MAX_PLAINTEXT then FailsWriting else Seals(text.value))
    case SealRecord(fails) =>
      if !s.writer.Seals? then s
      else
        var (channel, r) := SealStep(s.channel, c.a, AAD, s.writer.text, fails);
        if r.Err? then s.(channel := channel, writer := FailsWriting)
        else s.(channel := channel, writer := Writes(Encoding(RecordFrame(r.value))), sealed := s.sealed + [s.writer.text])
    case WriteSome(most, fails) =>
      if !s.writer.Writes? then s
      else if fails then s.(writer := FailsWriting)
      else
        var n := Min(most, |s.writer.rest|);
        s.(writer := if n == |s.writer.rest| then Waits else Writes(s.writer.rest[n..]), written := s.written + s.writer.rest[..n])
  }

  function Next(c: Setup, s: State, e: Event): State
    requires InRange(s.channel)
  {
    match e
    case ReaderMoves(k) => ReaderStep(c, s, k)
    case WriterMoves(k) => WriterStep(c, s, k)
    case ReaderFails => if s.reader.FailsReading? then s.(reader := Rests, failed := true) else s
    case WriterFails => if s.writer.FailsWriting? then s.(writer := Waits, failed := true) else s
    case DropReader => if s.reader.Rests? then s.(reader := Dropped, failed := true) else s
    case DropWriter => if s.writer.Waits? then s.(writer := Gone, failed := true) else s
  }

  lemma NextIsInRange(c: Setup, s: State, e: Event)
    requires InRange(s.channel)
    ensures InRange(Next(c, s, e).channel)
  {
  }

  function Run(c: Setup, s: State, events: seq<Event>): State
    requires InRange(s.channel)
    decreases |events|
  {
    if events == [] then s
    else
      NextIsInRange(c, s, events[0]);
      Run(c, Next(c, s, events[0]), events[1..])
  }

  // -----------------------------------------------------------------------------------------------------------------
  // What every interleaving keeps
  // -----------------------------------------------------------------------------------------------------------------

  /** The receiving half of the record state. */
  function Inbound(c: Channel): Channel { Channel(c.sendKey, c.receiveKey, 0, c.highest) }

  /** What has come out and what is still to come are the deliveries of the whole stream. */
  ghost predicate Receiving(c: Setup, inbound: Channel, plain: seq<seq<byte>>, frames: seq<Frame>)
    requires InRange(c.origin) && InRange(inbound)
  {
    Deliveries(Inbound(c.origin), c.a, c.wire) == plain + OpenAll(inbound, c.a, frames)
  }

  ghost predicate ReaderOk(c: Setup, s: State) {
    && InRange(c.origin) && InRange(s.channel) && s.plain <= Deliveries(Inbound(c.origin), c.a, c.wire)
    && (match s.reader
        case Rests => !s.failed ==> Receiving(c, Inbound(s.channel), s.plain, Drain(s.incoming).0)
        case Reads => Receiving(c, Inbound(s.channel), s.plain, Drain(s.incoming).0)
        case Opens(frame) => Receiving(c, Inbound(s.channel), s.plain, [frame] + Drain(s.incoming).0)
        case Judges(_) => Receiving(c, Inbound(s.channel), s.plain, Drain(s.incoming).0)
        case FailsReading => true
        case Dropped => s.failed)
  }

  /** Every text but one that is being judged, or was refused, has been handed on. */
  ghost predicate ReturnedOk(s: State) {
    && s.returned <= s.plain && |s.plain| <= |s.returned| + 1
    && (match s.reader
        case Judges(text) => s.plain == s.returned + [text]
        case Rests => !s.failed ==> s.returned == s.plain
        case FailsReading => true
        case Dropped => true
        case _ => s.returned == s.plain)
  }

  ghost predicate WriterOk(c: Setup, s: State) {
    && Lawful(c.a) && s.channel.next <= U64_MAX && c.first + |s.sealed| <= s.channel.next && (forall p | p in s.sealed :: |p| <= MAX_PLAINTEXT)
    && s.channel.sendKey == c.origin.sendKey
    && Sending(c, s.channel.next, s.sealed, s.written, s.writer, s.failed)
  }

  ghost predicate Sending(c: Setup, next: nat, sealed: seq<seq<byte>>, written: seq<byte>, writer: WriterPc, failed: bool)
    requires c.first + |sealed| <= U64_MAX
  {
    var whole := Connection.WireOf(c.a, c.origin.sendKey, c.first, sealed);
    && written <= whole
    && (match writer
        case Waits => !failed ==> written == whole && c.first + |sealed| == next
        case Seals(text) => written == whole && c.first + |sealed| == next && |text| <= MAX_PLAINTEXT
        case Writes(rest) => written + rest == whole && c.first + |sealed| == next
        case FailsWriting => true
        case Gone => failed)
  }

  ghost predicate Inv(c: Setup, s: State) { ReaderOk(c, s) && ReturnedOk(s) && WriterOk(c, s) }

  lemma InitialInv(c: Setup, s: State)
    requires Initial(c, s)
    ensures Inv(c, s)
  {
    var all := Deliveries(Inbound(c.origin), c.a, c.wire);
    assert [] + all == all;
  }

  lemma TextComesOut(c: Setup, inbound: Channel, after: Channel, plain: seq<seq<byte>>, frame: Frame, frames: seq<Frame>, text: seq<byte>)
    requires InRange(c.origin) && InRange(inbound) && Receiving(c, inbound, plain, [frame] + frames)
    requires ReceiveFrame(inbound, c.a, frame) == (Ok(text), after)
    ensures InRange(after) && Receiving(c, after, plain + [text], frames)
    ensures plain + [text] <= Deliveries(Inbound(c.origin), c.a, c.wire)
  {
    OpenAllSteps(inbound, c.a, frame, frames);
    assert plain + ([text] + OpenAll(after, c.a, frames)) == plain + [text] + OpenAll(after, c.a, frames);
  }

  lemma OpeningKeeps(c: Setup, s: State)
    requires ReaderOk(c, s) && s.reader.Opens?
    ensures ReaderOk(c, ReaderStep(c, s, OpenRecord))
  {
    var (r, channel) := ReceiveFrame(s.channel, c.a, s.reader.frame);
    OneHalfOpens(s.channel, c.a, s.reader.frame);
    if r.Ok? { TextComesOut(c, Inbound(s.channel), Inbound(channel), s.plain, s.reader.frame, Drain(s.incoming).0, r.value); }
  }

  /** Opening looks at the receiving half alone, and changes nothing else. */
  lemma OneHalfOpens(c: Channel, a: Aead, frame: Frame)
    requires InRange(c)
    ensures var (r, after) := ReceiveFrame(c, a, frame);
            && ReceiveFrame(Inbound(c), a, frame) == (r, Inbound(after)) && after.next == c.next && after.sendKey == c.sendKey
            && InRange(after)
  {
  }

  lemma ReaderStepKeeps(c: Setup, s: State, k: ReaderMove)
    requires ReaderOk(c, s)
    ensures ReaderOk(c, ReaderStep(c, s, k))
  {
    match k
    case TakeFrame(comes, lost) => DrainSteps(s.incoming);
    case OpenRecord => if s.reader.Opens? { OpeningKeeps(c, s); }
    case _ =>
  }

  lemma ReaderStepReturns(c: Setup, s: State, k: ReaderMove)
    requires InRange(s.channel) && ReturnedOk(s)
    ensures ReturnedOk(ReaderStep(c, s, k))
  {
  }

  lemma SealingKeeps(c: Setup, s: State, fails: bool)
    requires WriterOk(c, s) && InRange(s.channel) && s.writer.Seals?
    ensures WriterOk(c, WriterStep(c, s, SealRecord(fails)))
  {
    var text := s.writer.text;
    var (channel, r) := SealStep(s.channel, c.a, AAD, text, fails);
    if r.Ok? {
      Connection.WireOfAppends(c.a, c.origin.sendKey, c.first, s.sealed, text, RecordFrame(r.value));
    }
  }

  lemma WritingKeeps(c: Setup, s: State, most: nat, fails: bool)
    requires WriterOk(c, s) && InRange(s.channel) && s.writer.Writes?
    ensures WriterOk(c, WriterStep(c, s, WriteSome(most, fails)))
  {
    var rest := s.writer.rest;
    var n := Min(most, |rest|);
    assert s.written + rest == s.written + rest[..n] + rest[n..];
    assert n == |rest| ==> rest[n..] == [];
  }

  lemma WriterStepKeeps(c: Setup, s: State, k: WriterMove)
    requires WriterOk(c, s) && InRange(s.channel)
    ensures WriterOk(c, WriterStep(c, s, k))
  {
    match k
    case SealRecord(fails) => if s.writer.Seals? { SealingKeeps(c, s, fails); }
    case WriteSome(most, fails) => if s.writer.Writes? { WritingKeeps(c, s, most, fails); }
    case _ =>
  }

  /** Neither thread's step disturbs the other's half, wherever that one is. */
  lemma HalvesAreApart(c: Setup, s: State, e: Event)
    requires InRange(s.channel) && (e.ReaderMoves? || e.WriterMoves?)
    ensures var t := Next(c, s, e);
            && t.failed == s.failed
            && (e.ReaderMoves? ==> t.writer == s.writer && t.written == s.written && t.sealed == s.sealed
                                   && t.channel.next == s.channel.next && t.channel.sendKey == s.channel.sendKey)
            && (e.WriterMoves? ==> t.reader == s.reader && t.incoming == s.incoming && t.plain == s.plain
                                   && t.returned == s.returned && Inbound(t.channel) == Inbound(s.channel))
  {
  }

  lemma NextKeeps(c: Setup, s: State, e: Event)
    requires Inv(c, s)
    ensures Inv(c, Next(c, s, e))
  {
    NextIsInRange(c, s, e);
    match e
    case ReaderMoves(k) =>
      HalvesAreApart(c, s, e);
      ReaderStepKeeps(c, s, k);
      ReaderStepReturns(c, s, k);
    case WriterMoves(k) =>
      HalvesAreApart(c, s, e);
      WriterStepKeeps(c, s, k);
    case _ =>
  }

  lemma {:induction false} RunKeeps(c: Setup, s: State, events: seq<Event>) returns (t: State)
    requires Inv(c, s)
    ensures t == Run(c, s, events) && Inv(c, t)
    decreases |events|
  {
    t := s;
    if events != [] {
      NextKeeps(c, s, events[0]);
      t := RunKeeps(c, Next(c, s, events[0]), events[1..]);
    }
  }

  // -----------------------------------------------------------------------------------------------------------------
  // What a user of the halves sees
  // -----------------------------------------------------------------------------------------------------------------

  /**
   In every interleaving: the texts handed on are a beginning of the deliveries of the incoming stream, and the network holds
   a beginning of the records sealed, all of them whenever the writer waits and nothing has failed.
   */
  lemma EveryInterleavingIsSound(c: Setup, s: State, events: seq<Event>) returns (t: State)
    requires Initial(c, s)
    ensures t == Run(c, s, events) && t.returned <= t.plain <= Deliveries(Inbound(c.origin), c.a, c.wire)
    ensures InRange(t.channel) && |t.plain| <= |t.returned| + 1
    ensures c.first + |t.sealed| <= U64_MAX && t.written <= Connection.WireOf(c.a, c.origin.sendKey, c.first, t.sealed)
    ensures t.writer.Waits? && !t.failed ==> t.written == Connection.WireOf(c.a, c.origin.sendKey, c.first, t.sealed)
    ensures t.reader.Rests? && !t.failed ==>
              t.returned + Deliveries(Inbound(t.channel), c.a, t.incoming) == Deliveries(Inbound(c.origin), c.a, c.wire)
  {
    InitialInv(c, s);
    t := RunKeeps(c, s, events);
  }

  /** Between two split connections over a hostile network: what is handed on is a beginning of what was sealed. */
  lemma HandedOnWasSealed(c: Setup, s: State, received: seq<Event>, d: Setup, r: State, sent: seq<Event>)
    requires Initial(c, s) && Initial(d, r) && c.a == d.a && d.origin.sendKey == c.origin.receiveKey
    requires d.first == 0 && Expected(c.origin) == 0
    requires OnlySealedOpens(c.a, c.origin.receiveKey, Run(d, r, sent).sealed, c.wire)
    ensures Run(c, s, received).returned <= Run(d, r, sent).sealed
  {
    var t := EveryInterleavingIsSound(c, s, received);
    DeliveriesArePrefix(Inbound(c.origin), c.a, Run(d, r, sent).sealed, c.wire);
  }

  /** Once the flag is up, a half that is between calls never moves another byte or text, whatever it is asked to do. */
  ghost predicate ReaderIsDone(s: State) { s.failed && (s.reader.Rests? || s.reader.FailsReading? || s.reader.Dropped?) }

  ghost predicate WriterIsDone(s: State) { s.failed && (s.writer.Waits? || s.writer.FailsWriting? || s.writer.Gone?) }

  lemma {:induction false} FailureIsFinal(c: Setup, s: State, events: seq<Event>) returns (t: State)
    requires InRange(s.channel)
    ensures t == Run(c, s, events) && (s.failed ==> t.failed)
    ensures ReaderIsDone(s) ==> t.incoming == s.incoming && t.plain == s.plain && t.returned == s.returned && ReaderIsDone(t)
    ensures WriterIsDone(s) ==> t.written == s.written && t.sealed == s.sealed && WriterIsDone(t)
    decreases |events|
  {
    t := s;
    if events != [] {
      NextIsInRange(c, s, events[0]);
      DoneStaysDone(c, s, events[0]);
      t := FailureIsFinal(c, Next(c, s, events[0]), events[1..]);
    }
  }

  lemma DoneStaysDone(c: Setup, s: State, e: Event)
    requires InRange(s.channel)
    ensures var t := Next(c, s, e);
            && (s.failed ==> t.failed)
            && (ReaderIsDone(s) ==> t.incoming == s.incoming && t.plain == s.plain && t.returned == s.returned && ReaderIsDone(t))
            && (WriterIsDone(s) ==> t.written == s.written && t.sealed == s.sealed && WriterIsDone(t))
  {
  }

  // -----------------------------------------------------------------------------------------------------------------
  // Overlapping calls are as good as calls one after the other
  // -----------------------------------------------------------------------------------------------------------------

  predicate Plain(e: Event) { e.ReaderMoves? || e.WriterMoves? }

  function OfReader(events: seq<Event>): seq<Event> {
    if events == [] then [] else (if events[0].ReaderMoves? then [events[0]] else []) + OfReader(events[1..])
  }

  function OfWriter(events: seq<Event>): seq<Event> {
    if events == [] then [] else (if events[0].WriterMoves? then [events[0]] else []) + OfWriter(events[1..])
  }

  /** All that the reader looks at and changes; the writer's half is defined in the same way. */
  predicate SameReaderHalf(s: State, t: State) {
    && s.failed == t.failed && s.reader == t.reader && s.incoming == t.incoming && s.plain == t.plain && s.returned == t.returned
    && Inbound(s.channel) == Inbound(t.channel)
  }

  predicate SameWriterHalf(s: State, t: State) {
    && s.failed == t.failed && s.writer == t.writer && s.written == t.written && s.sealed == t.sealed
    && s.channel.next == t.channel.next && s.channel.sendKey == t.channel.sendKey
  }

  lemma ReaderSeesItsHalf(c: Setup, s: State, t: State, k: ReaderMove)
    requires InRange(s.channel) && InRange(t.channel) && SameReaderHalf(s, t)
    ensures SameReaderHalf(ReaderStep(c, s, k), ReaderStep(c, t, k))
  {
    if k.OpenRecord? && s.reader.Opens? {
      OneHalfOpens(s.channel, c.a, s.reader.frame);
      OneHalfOpens(t.channel, c.a, t.reader.frame);
    }
  }

  lemma WriterSeesItsHalf(c: Setup, s: State, t: State, m: WriterMove)
    requires InRange(s.channel) && InRange(t.channel) && SameWriterHalf(s, t)
    ensures SameWriterHalf(WriterStep(c, s, m), WriterStep(c, t, m))
  {
  }

  /** Any step of the reader and any step of the writer can change places. */
  lemma StepsCommute(c: Setup, s: State, e: Event, f: Event) returns (both: State)
    requires InRange(s.channel) && e.ReaderMoves? && f.WriterMoves?
    ensures InRange(Next(c, s, e).channel) && InRange(Next(c, s, f).channel) && InRange(both.channel)
    ensures both == Next(c, Next(c, s, e), f) == Next(c, Next(c, s, f), e)
  {
    NextIsInRange(c, s, e);
    NextIsInRange(c, s, f);
    HalvesAreApart(c, s, e);
    HalvesAreApart(c, s, f);
    var r, w := Next(c, s, e), Next(c, s, f);
    ReaderSeesItsHalf(c, s, w, e.read);
    WriterSeesItsHalf(c, s, r, f.write);
    HalvesAreApart(c, r, f);
    HalvesAreApart(c, w, e);
    both := Next(c, r, f);
    NextIsInRange(c, r, f);
    SameHalvesAreEqual(both, Next(c, w, e));
  }

  lemma SameHalvesAreEqual(s: State, t: State)
    requires SameReaderHalf(s, t) && SameWriterHalf(s, t)
    ensures s == t
  {
  }

  /** A step of the writer can be moved behind any number of steps of the reader. */
  lemma {:induction false} WriterGoesLast(c: Setup, s: State, takes: seq<Event>, f: Event)
    requires InRange(s.channel) && f.WriterMoves? && forall e | e in takes :: e.ReaderMoves?
    ensures InRange(Next(c, s, f).channel) && InRange(Run(c, s, takes).channel)
    ensures Run(c, Next(c, s, f), takes) == Next(c, Run(c, s, takes), f)
    decreases |takes|
  {
    NextIsInRange(c, s, f);
    if takes != [] {
      var both := StepsCommute(c, s, takes[0], f);
      WriterGoesLast(c, Next(c, s, takes[0]), takes[1..], f);
    }
  }

  lemma RunFirst(c: Setup, s: State, e: Event, events: seq<Event>)
    requires InRange(s.channel)
    ensures InRange(Next(c, s, e).channel) && Run(c, s, [e] + events) == Run(c, Next(c, s, e), events)
  {
    assert ([e] + events)[1..] == events;
  }

  lemma OfReaderReads(events: seq<Event>)
    ensures forall e | e in OfReader(events) :: e.ReaderMoves?
  {
  }

  /**
   Until one half raises the flag, calls that overlap in any way come to what they would one after the other: all steps of
   the reader, then all steps of the writer. So a call of either half may be taken as one step.
   */
  lemma {:induction false} InterleavingIsSequential(c: Setup, s: State, events: seq<Event>)
    requires InRange(s.channel) && forall e | e in events :: Plain(e)
    ensures InRange(Run(c, s, OfReader(events)).channel)
    ensures Run(c, s, events) == Run(c, Run(c, s, OfReader(events)), OfWriter(events))
    decreases |events|
  {
    if events != [] {
      var e, rest := events[0], events[1..];
      assert Plain(e);
      NextIsInRange(c, s, e);
      InterleavingIsSequential(c, Next(c, s, e), rest);
      if e.ReaderMoves? {
        assert OfWriter(events) == OfWriter(rest);
        RunFirst(c, s, e, OfReader(rest));
      } else {
        assert OfReader(events) == OfReader(rest);
        OfReaderReads(rest);
        WriterGoesLast(c, s, OfReader(rest), e);
        RunFirst(c, Run(c, s, OfReader(rest)), e, OfWriter(rest));
      }
    }
  }
}
