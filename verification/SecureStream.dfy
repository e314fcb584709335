/** The ordered secure stream: sealed records with consecutive sequence numbers over a byte stream nobody protects. */
module SecureStream {
  import opened Wrappers
  import opened F = Framing
  import Incremental

  type Key = seq<byte>

  const U64_MAX := 0xFFFF_FFFF_FFFF_FFFF
  const TAG_SIZE := 16
  const MAX_PLAINTEXT := MAX_FRAME_SIZE - 64

  /** The ASCII bytes of the record context and of the nonce prefix. */
  const AAD: seq<byte> := [83, 69, 78, 83, 79, 82, 47, 111, 114, 100, 101, 114, 101, 100, 45, 114, 101, 99, 111, 114, 100, 47, 118, 50]
  const NONCE_PREFIX: seq<byte> := [83, 78, 82, 49]

  /**
   Authenticated encryption by key, sequence number, associated data and text. The sequence number stands for the nonce
   made from it, which NoncesAreDistinct allows.
   */
  datatype Aead = Aead(
    encrypt: (Key, nat, seq<byte>, seq<byte>) -> seq<byte>,
    decrypt: (Key, nat, seq<byte>, seq<byte>) -> Option<seq<byte>>)

  ghost predicate Lawful(a: Aead) {
    forall k, n, d, p {:trigger a.encrypt(k, n, d, p)} ::
      a.decrypt(k, n, d, a.encrypt(k, n, d, p)) == Some(p) && |a.encrypt(k, n, d, p)| == |p| + TAG_SIZE
  }

  datatype Record = Record(sequence: nat, ciphertext: seq<byte>)

  datatype CryptoError = Encryption | SequenceOverflow | Replay(sequence: nat)

  datatype Channel = Channel(sendKey: Key, receiveKey: Key, next: nat, highest: Option<nat>)

  function MakeNonce(sequence: nat): seq<byte>
    requires sequence <= U64_MAX
  {
    NONCE_PREFIX + Be64(sequence)
  }

  predicate InRange(c: Channel) {
    c.next <= U64_MAX && (c.highest.Some? ==> c.highest.value <= U64_MAX)
  }

  function SealStep(c: Channel, a: Aead, aad: seq<byte>, plaintext: seq<byte>, fails: bool): (Channel, Result<Record, CryptoError>)
    requires InRange(c)
  {
    if c.next == U64_MAX then (c, Err(SequenceOverflow))
    else
      (c.(next := c.next + 1),
       if fails then Err(Encryption) else Ok(Record(c.next, a.encrypt(c.sendKey, c.next, aad, plaintext))))
  }

  /** The sequence number the next accepted record must carry. */
  function Expected(c: Channel): nat { if c.highest.None? then 0 else c.highest.value + 1 }

  function OpenStep(c: Channel, a: Aead, record: Record, aad: seq<byte>): (Channel, Result<seq<byte>, CryptoError>)
    requires InRange(c) && record.sequence <= U64_MAX
  {
    if Expected(c) > U64_MAX then (c, Err(SequenceOverflow))
    else if record.sequence != Expected(c) then (c, Err(Replay(record.sequence)))
    else
      var plaintext := a.decrypt(c.receiveKey, record.sequence, aad, record.ciphertext);
      if plaintext.None? then (c, Err(Encryption)) else (c.(highest := Some(record.sequence)), Ok(plaintext.value))
  }

  class SecureChannel {
    const sendKey: Key
    const receiveKey: Key
    var next: nat
    var highest: Option<nat>

    ghost function Value(): Channel reads this { Channel(sendKey, receiveKey, next, highest) }

    constructor (sendKey: Key, receiveKey: Key)
      ensures Value() == Channel(sendKey, receiveKey, 0, None) && InRange(Value())
    {
      this.sendKey, this.receiveKey, next, highest := sendKey, receiveKey, 0, None;
    }

    method Seal(a: Aead, aad: seq<byte>, plaintext: seq<byte>, fails: bool) returns (r: Result<Record, CryptoError>)
      requires InRange(Value())
      modifies this`next
      ensures InRange(Value()) && (Value(), r) == SealStep(old(Value()), a, aad, plaintext, fails)
    {
      var sequence := next;
      if next == U64_MAX { return Err(SequenceOverflow); }
      next := next + 1;
      if fails { return Err(Encryption); }
      return Ok(Record(sequence, a.encrypt(sendKey, sequence, aad, plaintext)));
    }

    method Open(a: Aead, record: Record, aad: seq<byte>) returns (r: Result<seq<byte>, CryptoError>)
      requires InRange(Value()) && record.sequence <= U64_MAX
      modifies this`highest
      ensures InRange(Value()) && (Value(), r) == OpenStep(old(Value()), a, record, aad)
      ensures r.Err? ==> highest == old(highest)
    {
      var expected := 0;
      if highest.Some? {
        if highest.value == U64_MAX { return Err(SequenceOverflow); }
        expected := highest.value + 1;
      }
      if record.sequence != expected { return Err(Replay(record.sequence)); }
      var plaintext := a.decrypt(receiveKey, record.sequence, aad, record.ciphertext);
      if plaintext.None? { return Err(Encryption); }
      highest := Some(record.sequence);
      return Ok(plaintext.value);
    }
  }

  /** Sealing and opening may interleave in any order between a reader and a writer of one channel. */
  lemma SealAndOpenCommute(c: Channel, a: Aead, aad: seq<byte>, plaintext: seq<byte>, fails: bool, record: Record)
    requires InRange(c) && record.sequence <= U64_MAX
    ensures var (sealed, s) := SealStep(c, a, aad, plaintext, fails);
            var (received, o) := OpenStep(c, a, record, aad);
            && OpenStep(sealed, a, record, aad) == (SealStep(received, a, aad, plaintext, fails).0, o)
            && SealStep(received, a, aad, plaintext, fails).1 == s
  {
  }

  lemma NoncesAreDistinct(m: nat, n: nat)
    requires m <= U64_MAX && n <= U64_MAX && MakeNonce(m) == MakeNonce(n)
    ensures m == n
  {
    assert MakeNonce(m)[4..] == Be64(m) && MakeNonce(n)[4..] == Be64(n);
    Be64RoundTrip(m, Be64(m));
    Be64RoundTrip(n, Be64(n));
  }

  datatype Sealing = Sealing(aad: seq<byte>, plaintext: seq<byte>, fails: bool)

  /** The records a channel produces over a run of seal calls; failed calls produce none. */
  function SealAll(c: Channel, a: Aead, calls: seq<Sealing>): seq<Record>
    requires InRange(c)
    decreases |calls|
  {
    if calls == [] then []
    else
      var (c', r) := SealStep(c, a, calls[0].aad, calls[0].plaintext, calls[0].fails);
      (if r.Ok? then [r.value] else []) + SealAll(c', a, calls[1..])
  }

  ghost predicate Increasing(records: seq<Record>, from: nat) {
    && (forall i | 0 <= i < |records| :: from <= records[i].sequence < U64_MAX)
    && (forall i, j | 0 <= i < j < |records| :: records[i].sequence < records[j].sequence)
  }

  lemma PrependIncreasing(record: Record, records: seq<Record>)
    requires record.sequence < U64_MAX && Increasing(records, record.sequence + 1)
    ensures Increasing([record] + records, record.sequence)
  {
  }

  lemma SealAllSteps(c: Channel, a: Aead, calls: seq<Sealing>) returns (c': Channel, r: Result<Record, CryptoError>)
    requires InRange(c) && calls != []
    ensures (c', r) == SealStep(c, a, calls[0].aad, calls[0].plaintext, calls[0].fails) && InRange(c')
    ensures SealAll(c, a, calls) == (if r.Ok? then [r.value] else []) + SealAll(c', a, calls[1..])
    ensures c.next <= c'.next && (r.Ok? ==> r.value.sequence == c.next && c'.next == c.next + 1)
  {
    var t := SealStep(c, a, calls[0].aad, calls[0].plaintext, calls[0].fails);
    c', r := t.0, t.1;
  }

  lemma {:induction false} SealedSequencesIncrease(c: Channel, a: Aead, calls: seq<Sealing>)
    requires InRange(c)
    ensures Increasing(SealAll(c, a, calls), c.next)
    decreases |calls|
  {
    if calls != [] {
      var c', r := SealAllSteps(c, a, calls);
      SealedSequencesIncrease(c', a, calls[1..]);
      var rest := SealAll(c', a, calls[1..]);
      if r.Ok? {
        PrependIncreasing(r.value, rest);
      } else {
        assert [] + rest == rest;
      }
    }
  }

  /** Whatever is sealed, and however often sealing fails, no nonce is ever used twice under the sending key. */
  lemma NoNonceIsReused(c: Channel, a: Aead, calls: seq<Sealing>, i: nat, j: nat)
    requires InRange(c) && i < j < |SealAll(c, a, calls)|
    ensures var records := SealAll(c, a, calls);
            && records[i].sequence <= U64_MAX && records[j].sequence <= U64_MAX
            && MakeNonce(records[i].sequence) != MakeNonce(records[j].sequence)
  {
    SealedSequencesIncrease(c, a, calls);
    var records := SealAll(c, a, calls);
    if MakeNonce(records[i].sequence) == MakeNonce(records[j].sequence) {
      NoncesAreDistinct(records[i].sequence, records[j].sequence);
    }
  }

  // -----------------------------------------------------------------------------------------------------------------
  // Records on the wire
  // -----------------------------------------------------------------------------------------------------------------

  datatype StreamError = Io | BadFrame(error: TransportError) | Crypto(reason: CryptoError) | UnexpectedMessage | Closed | TooLarge

  function RecordFrame(record: Record): Frame
    requires record.sequence <= U64_MAX
  {
    Frame(PROTOCOL_VERSION, Control, Be64(record.sequence) + record.ciphertext)
  }

  function FromBe64(s: seq<byte>): (n: nat)
    requires |s| == 8
    ensures n <= U64_MAX
  {
    Widths();
    FromBe(s)
  }

  function ParseRecord(frame: Frame): Option<Record> {
    if frame.messageType != Control || |frame.payload| < 24 then None
    else Some(Record(FromBe64(frame.payload[..8]), frame.payload[8..]))
  }

  /** What one frame does to a receiver. */
  function ReceiveFrame(c: Channel, a: Aead, frame: Frame): (Result<seq<byte>, StreamError>, Channel)
    requires InRange(c)
  {
    var record := ParseRecord(frame);
    if record.None? then (Err(UnexpectedMessage), c)
    else
      var (c', plaintext) := OpenStep(c, a, record.value, AAD);
      (if plaintext.Err? then Err(Crypto(plaintext.error)) else Ok(plaintext.value), c')
  }

  /** One receive on the bytes that have arrived or ever will: the result, the channel afterwards, the bytes left. */
  function ReceiveOne(c: Channel, a: Aead, wire: seq<byte>): (Result<seq<byte>, StreamError>, Channel, seq<byte>)
    requires InRange(c)
  {
    var (frame, rest) := NextFrame(wire);
    if frame.Err? then (Err(BadFrame(frame.error)), c, rest)
    else if frame.value.None? then (Err(Io), c, rest)
    else
      var (r, c') := ReceiveFrame(c, a, frame.value.value);
      (r, c', rest)
  }

  /** The texts a receiver delivers from arriving frames: it stops for good at the first failure. */
  function OpenAll(c: Channel, a: Aead, frames: seq<Frame>): seq<seq<byte>>
    requires InRange(c)
    decreases |frames|
  {
    if frames == [] then []
    else
      var (r, c') := ReceiveFrame(c, a, frames[0]);
      if r.Err? then [] else [r.value] + OpenAll(c', a, frames[1..])
  }

  /** Everything a receiver delivers from a byte stream; the frames end at the first invalid or incomplete one. */
  function Deliveries(c: Channel, a: Aead, wire: seq<byte>): seq<seq<byte>>
    requires InRange(c)
  {
    OpenAll(c, a, Drain(wire).0)
  }

  lemma OpenAllSteps(c: Channel, a: Aead, frame: Frame, frames: seq<Frame>)
    requires InRange(c)
    ensures var (r, c') := ReceiveFrame(c, a, frame);
            InRange(c') && OpenAll(c, a, [frame] + frames) == if r.Err? then [] else [r.value] + OpenAll(c', a, frames)
  {
    assert ([frame] + frames)[1..] == frames;
  }

  lemma DrainSteps(wire: seq<byte>)
    ensures var (frame, rest) := NextFrame(wire);
            Drain(wire).0 == if frame.Ok? && frame.value.Some? then [frame.value.value] + Drain(rest).0 else []
  {
  }

  /** Deliveries are what receiving one record after the other returns, up to the first error. */
  lemma DeliveriesAreReceives(c: Channel, a: Aead, wire: seq<byte>)
    requires InRange(c)
    ensures var (r, c', rest) := ReceiveOne(c, a, wire);
            && InRange(c')
            && Deliveries(c, a, wire) == if r.Err? then [] else [r.value] + Deliveries(c', a, rest)
  {
    DrainSteps(wire);
    var (frame, rest) := NextFrame(wire);
    if frame.Ok? && frame.value.Some? { OpenAllSteps(c, a, frame.value.value, Drain(rest).0); }
  }

  /** A ciphertext opens, under any sequence number, only if the peer sealed it under that number. */
  ghost predicate OpensOnlySealed(a: Aead, k: Key, sent: seq<seq<byte>>, ciphertext: seq<byte>) {
    forall n: nat {:trigger a.decrypt(k, n, AAD, ciphertext)} ::
      a.decrypt(k, n, AAD, ciphertext).Some? ==> n < |sent| && ciphertext == a.encrypt(k, n, AAD, sent[n])
  }

  /** The ideal law on one wire: nothing that anyone could cut out of it opens, except what the peer sealed. */
  ghost predicate OnlySealedOpens(a: Aead, k: Key, sent: seq<seq<byte>>, wire: seq<byte>) {
    forall s: seq<byte> :: OnWire(s, wire) ==> OpensOnlySealed(a, k, sent, s)
  }

  /** Stretches of a wire: what anyone could present as a ciphertext. */
  ghost predicate OnWire(s: seq<byte>, wire: seq<byte>) {
    exists i: nat, j: nat :: i <= j <= |wire| && s == wire[i..j]
  }

  lemma TailIsOnWire(s: seq<byte>, head: seq<byte>, wire: seq<byte>)
    requires OnWire(s, wire)
    ensures OnWire(s, head + wire)
  {
    var i: nat, j: nat :| i <= j <= |wire| && s == wire[i..j];
    assert (head + wire)[|head| + i..|head| + j] == s;
  }

  /** Every payload that comes out of the framing is a stretch of the wire. */
  lemma {:induction false} PayloadsAreOnTheWire(wire: seq<byte>, frame: Frame)
    requires frame in Drain(wire).0
    ensures OnWire(frame.payload, wire)
    decreases |wire|
  {
    var (r, rest) := NextFrame(wire);
    NextFrameIsAnEncoding(wire);
    if frame == r.value.value {
      var length := FromBe(wire[..LENGTH_PREFIX_SIZE]);
      assert frame.payload == wire[LENGTH_PREFIX_SIZE + HEADER_SIZE..LENGTH_PREFIX_SIZE + length];
    } else {
      PayloadsAreOnTheWire(rest, frame);
      TailIsOnWire(frame.payload, EncodeLengthDelimited(r.value.value).value, rest);
    }
  }

  lemma CiphertextIsOnTheWire(wire: seq<byte>, frame: Frame)
    requires frame in Drain(wire).0 && ParseRecord(frame).Some?
    ensures OnWire(ParseRecord(frame).value.ciphertext, wire)
  {
    PayloadsAreOnTheWire(wire, frame);
    var i: nat, j: nat :| i <= j <= |wire| && frame.payload == wire[i..j];
    assert wire[i + 8..j] == frame.payload[8..];
  }

  lemma {:induction false} OpenedFramesArePrefix(c: Channel, a: Aead, sent: seq<seq<byte>>, frames: seq<Frame>)
    requires InRange(c) && Lawful(a) && Expected(c) <= |sent|
    requires forall f | f in frames && ParseRecord(f).Some? :: OpensOnlySealed(a, c.receiveKey, sent, ParseRecord(f).value.ciphertext)
    ensures OpenAll(c, a, frames) <= sent[Expected(c)..]
    decreases |frames|
  {
    if frames != [] && ParseRecord(frames[0]).Some? {
      var record := ParseRecord(frames[0]).value;
      var (c', plaintext) := OpenStep(c, a, record, AAD);
      if plaintext.Ok? {
        var n := Expected(c);
        assert OpensOnlySealed(a, c.receiveKey, sent, record.ciphertext);
        assert plaintext.value == sent[n];
        OpenedFramesArePrefix(c', a, sent, frames[1..]);
        assert sent[n..] == [sent[n]] + sent[n + 1..];
      }
    }
  }

  /**
   For every byte stream at all, whatever was dropped, repeated, reordered, altered or invented on the way: the receiver
   delivers a prefix of what the peer sealed from its expected sequence number on.
   */
  lemma DeliveriesArePrefix(c: Channel, a: Aead, sent: seq<seq<byte>>, wire: seq<byte>)
    requires InRange(c) && Lawful(a) && Expected(c) <= |sent|
    requires OnlySealedOpens(a, c.receiveKey, sent, wire)
    ensures Deliveries(c, a, wire) <= sent[Expected(c)..]
  {
    var frames := Drain(wire).0;
    forall f | f in frames && ParseRecord(f).Some?
      ensures OpensOnlySealed(a, c.receiveKey, sent, ParseRecord(f).value.ciphertext)
    {
      CiphertextIsOnTheWire(wire, f);
    }
    OpenedFramesArePrefix(c, a, sent, frames);
  }

  function SealedRecord(a: Aead, k: Key, sequence: nat, plaintext: seq<byte>): Record
    requires sequence <= U64_MAX
  {
    Record(sequence, a.encrypt(k, sequence, AAD, plaintext))
  }

  /** Every plaintext within the limit fits its outer frame, and the frame parses back to its record. */
  lemma SealedRecordFits(a: Aead, k: Key, sequence: nat, plaintext: seq<byte>)
    requires Lawful(a) && sequence <= U64_MAX && |plaintext| <= MAX_PLAINTEXT
    ensures var record := SealedRecord(a, k, sequence, plaintext);
            Encodable(RecordFrame(record)) && ParseRecord(RecordFrame(record)) == Some(record)
  {
    var record := SealedRecord(a, k, sequence, plaintext);
    var payload := Be64(sequence) + record.ciphertext;
    assert payload[..8] == Be64(sequence) && payload[8..] == record.ciphertext;
    Be64RoundTrip(sequence, Be64(sequence));
  }

  /** The frames an undisturbed sender puts on the wire from a sequence number on. */
  function FramesOf(a: Aead, k: Key, from: nat, sent: seq<seq<byte>>): seq<Frame>
    requires from + |sent| <= U64_MAX
    decreases |sent|
  {
    if sent == [] then [] else [RecordFrame(SealedRecord(a, k, from, sent[0]))] + FramesOf(a, k, from + 1, sent[1..])
  }

  lemma FirstFrameIsEncodable(a: Aead, k: Key, from: nat, sent: seq<seq<byte>>) returns (frame: Frame)
    requires Lawful(a) && 0 < |sent| && from + |sent| <= U64_MAX && |sent[0]| <= MAX_PLAINTEXT
    ensures Encodable(frame) && FramesOf(a, k, from, sent) == [frame] + FramesOf(a, k, from + 1, sent[1..])
  {
    SealedRecordFits(a, k, from, sent[0]);
    frame := RecordFrame(SealedRecord(a, k, from, sent[0]));
  }

  lemma {:induction false} FramesOfAreEncodable(a: Aead, k: Key, from: nat, sent: seq<seq<byte>>)
    requires Lawful(a) && from + |sent| <= U64_MAX && (forall p | p in sent :: |p| <= MAX_PLAINTEXT)
    ensures forall f | f in FramesOf(a, k, from, sent) :: Encodable(f)
    decreases |sent|
  {
    if sent != [] {
      var _ := FirstFrameIsEncodable(a, k, from, sent);
      FramesOfAreEncodable(a, k, from + 1, sent[1..]);
    }
  }

  lemma SealedRecordIsReceived(c: Channel, a: Aead, plaintext: seq<byte>)
    requires InRange(c) && Lawful(a) && Expected(c) <= U64_MAX && |plaintext| <= MAX_PLAINTEXT
    ensures ReceiveFrame(c, a, RecordFrame(SealedRecord(a, c.receiveKey, Expected(c), plaintext)))
            == (Ok(plaintext), c.(highest := Some(Expected(c))))
  {
    SealedRecordFits(a, c.receiveKey, Expected(c), plaintext);
  }

  ghost predicate Takes(c: Channel, a: Aead, frame: Frame, plaintext: seq<byte>, c': Channel) {
    && InRange(c) && InRange(c')
    && (forall frames :: OpenAll(c, a, [frame] + frames) == [plaintext] + OpenAll(c', a, frames))
  }

  lemma ReceivedFrameIsTaken(c: Channel, a: Aead, frame: Frame, plaintext: seq<byte>, c': Channel)
    requires InRange(c) && ReceiveFrame(c, a, frame) == (Ok(plaintext), c')
    ensures Takes(c, a, frame, plaintext, c')
  {
    forall frames ensures InRange(c') && OpenAll(c, a, [frame] + frames) == [plaintext] + OpenAll(c', a, frames) {
      OpenAllSteps(c, a, frame, frames);
    }
    OpenAllSteps(c, a, frame, []);
  }

  lemma FirstFrameIsReceived(c: Channel, a: Aead, sent: seq<seq<byte>>) returns (frame: Frame, c': Channel)
    requires InRange(c) && Lawful(a) && 0 < |sent| && Expected(c) + |sent| <= U64_MAX && |sent[0]| <= MAX_PLAINTEXT
    ensures FramesOf(a, c.receiveKey, Expected(c), sent) == [frame] + FramesOf(a, c.receiveKey, Expected(c) + 1, sent[1..])
    ensures c' == c.(highest := Some(Expected(c))) && Takes(c, a, frame, sent[0], c')
  {
    SealedRecordIsReceived(c, a, sent[0]);
    frame := RecordFrame(SealedRecord(a, c.receiveKey, Expected(c), sent[0]));
    c' := c.(highest := Some(Expected(c)));
    ReceivedFrameIsTaken(c, a, frame, sent[0], c');
  }

  lemma {:induction false} FramesOfOpen(c: Channel, a: Aead, sent: seq<seq<byte>>)
    requires InRange(c) && Lawful(a) && Expected(c) + |sent| <= U64_MAX && (forall p | p in sent :: |p| <= MAX_PLAINTEXT)
    ensures OpenAll(c, a, FramesOf(a, c.receiveKey, Expected(c), sent)) == sent
    decreases |sent|
  {
    if sent != [] {
      var frame, c' := FirstFrameIsReceived(c, a, sent);
      FramesOfOpen(c', a, sent[1..]);
      assert sent == [sent[0]] + sent[1..];
    }
  }

  /** Exactly the frames that were encoded come out of their joined encodings. */
  lemma WholeStreamComesOut(frames: seq<Frame>)
    requires forall f | f in frames :: Encodable(f)
    ensures Drain(Incremental.EncodeAll(Encoding, frames)).0 == frames
  {
    FramesAreDelimited();
    var k := Incremental.ArrivedItemsComeOut(Drain, Encoding, Encodable, frames, Incremental.EncodeAll(Encoding, frames));
    if k < |frames| { Incremental.PrefixesEncodeShorter(Encoding, frames, k + 1); }
    assert frames[..k] == frames;
  }

  /** Over an undisturbed stream everything arrives, for any plaintexts within the limit. */
  lemma UndisturbedStreamDelivers(c: Channel, a: Aead, sent: seq<seq<byte>>)
    requires InRange(c) && Lawful(a) && Expected(c) + |sent| <= U64_MAX && (forall p | p in sent :: |p| <= MAX_PLAINTEXT)
    ensures Deliveries(c, a, Incremental.EncodeAll(Encoding, FramesOf(a, c.receiveKey, Expected(c), sent))) == sent
  {
    FramesOfAreEncodable(a, c.receiveKey, Expected(c), sent);
    WholeStreamComesOut(FramesOf(a, c.receiveKey, Expected(c), sent));
    FramesOfOpen(c, a, sent);
  }
}
