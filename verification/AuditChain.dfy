/** The signed, hash-linked audit log: its verifier over arbitrary chunks of bytes, and its writer. */
module AuditChain {
  import opened Wrappers

  type Hash = seq<byte>

  const MAX_LINE := 4096
  const NEWLINE: byte := 10
  const U64_MAX := 0xFFFF_FFFF_FFFF_FFFF
  /** The ASCII bytes of the signing domain. */
  const DOMAIN: seq<byte> := [83, 69, 78, 83, 79, 82, 47, 97, 117, 100, 105, 116, 47, 118, 49]

  /** An event is a number here: the chain never looks inside it. */
  datatype Body = Body(version: nat, sequence: nat, timestamp: nat, previous: Hash, event: nat)

  datatype Record = Record(body: Body, signature: seq<byte>)

  datatype Head = Head(records: nat, hash: Hash)

  const START := Head(0, [0, 0, 0, 0, 0, 0, 0, 0, 0, 0, 0, 0, 0, 0, 0, 0, 0, 0, 0, 0, 0, 0, 0, 0, 0, 0, 0, 0, 0, 0, 0, 0])

  datatype AuditError = Io | Json | Invalid

  /** Serialisation of records and bodies, the hash, and one identity's signatures. */
  datatype Scheme = Scheme(
    encode: Record -> seq<byte>,
    decode: seq<byte> -> Option<Record>,
    encodeBody: Body -> seq<byte>,
    hash: seq<byte> -> Hash,
    sign: seq<byte> -> seq<byte>,
    verifies: (seq<byte>, seq<byte>) -> bool)

  /** A record is read back from its line, lines have no newline inside, and the identity's own signatures verify. */
  ghost predicate Lawful(s: Scheme) {
    && (forall r {:trigger s.encode(r)} :: s.decode(s.encode(r) + [NEWLINE]) == Some(r) && NEWLINE !in s.encode(r))
    && (forall m {:trigger s.sign(m)} :: s.verifies(m, s.sign(m)))
  }

  /** A body's encoding shows where it ends, so what is hashed determines the record. */
  ghost predicate Separable(s: Scheme) {
    forall a, b, x, y {:trigger s.encodeBody(a) + x, s.encodeBody(b) + y} ::
      s.encodeBody(a) + x == s.encodeBody(b) + y ==> a == b && x == y
  }

  function Signable(s: Scheme, body: Body): seq<byte> { DOMAIN + s.encodeBody(body) }

  function RecordHash(s: Scheme, r: Record): Hash { s.hash(Signable(s, r.body) + r.signature) }

  /** The head after one more record, if the record continues the chain. */
  function Link(s: Scheme, head: Head, r: Record): Result<Head, AuditError> {
    if r.body.version != 1 || r.body.sequence != head.records || r.body.previous != head.hash then Err(Invalid)
    else if !s.verifies(Signable(s, r.body), r.signature) then Err(Invalid)
    else if head.records == U64_MAX then Err(Invalid)
    else Ok(Head(head.records + 1, RecordHash(s, r)))
  }

  /** Where the first line ends, its newline included, or the length if there is no newline. */
  function LineEnd(bytes: seq<byte>): (n: nat)
    ensures n <= |bytes|
    ensures bytes != [] ==> n > 0
  {
    if bytes == [] then 0 else if bytes[0] == NEWLINE then 1 else 1 + LineEnd(bytes[1..])
  }

  predicate Ended(line: seq<byte>) { line != [] && line[|line| - 1] == NEWLINE }

  /** What the verifier makes of a log's bytes, from some head on. */
  function VerifyFrom(s: Scheme, head: Head, bytes: seq<byte>): Result<Head, AuditError>
    decreases |bytes|
  {
    if bytes == [] then Ok(head)
    else
      var line := bytes[..LineEnd(bytes)];
      if |line| > MAX_LINE || !Ended(line) then Err(Invalid)
      else
        var record := s.decode(line);
        if record.None? then Err(Json)
        else
          var next := Link(s, head, record.value);
          if next.Err? then next else VerifyFrom(s, next.value, bytes[LineEnd(bytes)..])
  }

  // -----------------------------------------------------------------------------------------------------------------
  // The verifier's loops
  // -----------------------------------------------------------------------------------------------------------------

  /** A buffered reader: what is left in its buffer, what the coming refills will bring, and after how many reads it fails. */
  class Reader {
    var buffer: seq<byte>
    var refills: seq<seq<byte>>
    var patience: Option<nat>

    ghost predicate Valid() reads this { forall c | c in refills :: c != [] }
    ghost function Rest(): seq<byte> reads this { buffer + Concat(refills) }

    constructor (chunks: seq<seq<byte>>, patience: Option<nat>)
      requires forall c | c in chunks :: c != []
      ensures Valid() && Rest() == Concat(chunks) && this.patience == patience
    {
      buffer, refills, this.patience := [], chunks, patience;
      new;
      assert [] + Concat(chunks) == Concat(chunks);
    }

    method FillBuf() returns (available: Option<seq<byte>>)
      requires Valid()
      modifies this
      ensures Valid() && Rest() == old(Rest()) && (patience.None? <==> old(patience).None?)
      ensures patience.None? ==> available.Some?
      ensures available.Some? ==> available.value == buffer && (buffer == [] ==> Rest() == [])
    {
      if patience == Some(0) { return None; }
      if patience.Some? { patience := Some(patience.value - 1); }
      if buffer == [] && refills != [] {
        assert refills[0] in refills && forall c | c in refills[1..] :: c in refills;
        assert [] + (refills[0] + Concat(refills[1..])) == refills[0] + Concat(refills[1..]);
        buffer, refills := refills[0], refills[1..];
      }
      assert refills == [] ==> buffer + Concat(refills) == buffer;
      available := Some(buffer);
    }

    method Consume(n: nat)
      requires Valid() && n <= |buffer|
      modifies this
      ensures Valid() && old(Rest()) == old(buffer)[..n] + Rest() && patience == old(patience)
    {
      assert buffer + Concat(refills) == buffer[..n] + (buffer[n..] + Concat(refills));
      buffer := buffer[n..];
    }
  }

  method PositionOf(bytes: seq<byte>) returns (n: nat)
    ensures n == LineEnd(bytes)
  {
    n := 0;
    while n < |bytes|
      invariant n <= |bytes| && LineEnd(bytes) == n + LineEnd(bytes[n..])
    {
      if bytes[n] == NEWLINE { return n + 1; }
      assert bytes[n..][1..] == bytes[n + 1..];
      n := n + 1;
    }
  }

  lemma {:induction false} LineEndShape(bytes: seq<byte>)
    ensures var n := LineEnd(bytes);
            && (forall i | 0 <= i < n - 1 :: bytes[i] != NEWLINE)
            && (n < |bytes| ==> n > 0 && bytes[n - 1] == NEWLINE)
            && (0 < n && bytes[n - 1] != NEWLINE ==> n == |bytes|)
  {
    if bytes != [] && bytes[0] != NEWLINE { LineEndShape(bytes[1..]); }
  }

  /** A line continues through bytes without a newline, and stops at the first one. */
  lemma {:induction false} LineEndSplits(a: seq<byte>, b: seq<byte>)
    requires NEWLINE !in a
    ensures LineEnd(a + b) == |a| + LineEnd(b)
  {
    if a == [] {
      assert a + b == b;
    } else {
      assert (a + b)[1..] == a[1..] + b;
      LineEndSplits(a[1..], b);
    }
  }

  lemma {:induction false} LineEndInPrefix(a: seq<byte>, b: seq<byte>)
    ensures Ended(a[..LineEnd(a)]) ==> LineEnd(a + b) == LineEnd(a)
    ensures !Ended(a[..LineEnd(a)]) ==> NEWLINE !in a && LineEnd(a) == |a|
  {
    if a == [] {
    } else if a[0] != NEWLINE {
      assert (a + b)[1..] == a[1..] + b;
      LineEndInPrefix(a[1..], b);
      var n := LineEnd(a[1..]);
      if n > 0 { assert a[..n + 1][n] == a[1..][..n][n - 1]; }
    }
  }

  /** Adds to a line what the buffer has of it, and tells whether that completes it. */
  method TakePiece(reader: Reader, line: seq<byte>, ghost bytes: seq<byte>) returns (r: Result<seq<byte>, AuditError>, done: bool)
    requires reader.Valid() && bytes == line + reader.Rest() && NEWLINE !in line && |line| <= MAX_LINE
    modifies reader
    ensures reader.Valid() && (reader.patience.None? <==> old(reader.patience).None?)
    ensures r.Err? ==> (r == Err(Io) && reader.patience.Some?) || (r == Err(Invalid) && LineEnd(bytes) > MAX_LINE)
    ensures r.Ok? ==> bytes == r.value + reader.Rest() && |r.value| <= MAX_LINE
    ensures r.Ok? && done ==> |r.value| == LineEnd(bytes)
    ensures r.Ok? && !done ==> NEWLINE !in r.value && |reader.Rest()| < old(|reader.Rest()|)
  {
    var filled := reader.FillBuf();
    if filled.None? { return Err(Io), true; }
    var available := filled.value;
    if available == [] {
      LineEndSplits(line, []);
      return Ok(line), true;
    }
    var length := PositionOf(available);
    LineGrows(line, available, Concat(reader.refills), bytes);
    if |line| + length > MAX_LINE { return Err(Invalid), true; }
    ghost var rest := reader.Rest();
    reader.Consume(length);
    TakesPiece(bytes, line, rest, available[..length], reader.Rest());
    return Ok(line + available[..length]), available[length - 1] == NEWLINE;
  }

  /** Reads one line, however it is spread over refills, unless it grows past the bound. */
  method ReadLine(reader: Reader) returns (r: Result<seq<byte>, AuditError>)
    requires reader.Valid()
    modifies reader
    ensures reader.Valid() && (reader.patience.None? <==> old(reader.patience).None?)
    ensures var bytes := old(reader.Rest());
            var n := LineEnd(bytes);
            || (r == Err(Io) && reader.patience.Some?)
            || (if n > MAX_LINE then r == Err(Invalid) else r == Ok(bytes[..n]) && reader.Rest() == bytes[n..])
  {
    ghost var bytes := reader.Rest();
    var line: seq<byte> := [];
    var done := false;
    assert line + reader.Rest() == bytes;
    while !done
      invariant reader.Valid() && (reader.patience.None? <==> old(reader.patience).None?)
      invariant bytes == line + reader.Rest() && |line| <= MAX_LINE
      invariant if done then |line| == LineEnd(bytes) else NEWLINE !in line
      decreases !done, |reader.Rest()|
    {
      var piece: Result<seq<byte>, AuditError>;
      piece, done := TakePiece(reader, line, bytes);
      if piece.Err? { return piece; }
      line := piece.value;
    }
    SplitAt(bytes, line, reader.Rest());
    return Ok(line);
  }

  lemma SplitAt(bytes: seq<byte>, line: seq<byte>, rest: seq<byte>)
    requires bytes == line + rest
    ensures bytes[..|line|] == line && bytes[|line|..] == rest
  {
  }

  lemma TakesPiece(bytes: seq<byte>, line: seq<byte>, rest: seq<byte>, piece: seq<byte>, later: seq<byte>)
    requires bytes == line + rest && rest == piece + later
    ensures bytes == (line + piece) + later
  {
  }

  /** The part of a line that one buffer holds. */
  lemma LineGrows(line: seq<byte>, available: seq<byte>, behind: seq<byte>, bytes: seq<byte>)
    requires bytes == line + (available + behind) && available != [] && NEWLINE !in line
    ensures var n := LineEnd(available);
            && 0 < n && |line| + n <= LineEnd(bytes)
            && (available[n - 1] == NEWLINE ==> |line| + n == LineEnd(bytes))
            && (available[n - 1] != NEWLINE ==> NEWLINE !in line + available[..n])
  {
    LineEndSplits(line, available + behind);
    LineEndInPrefix(available, behind);
    LineEndShape(available);
    var n := LineEnd(available);
    if available[n - 1] != NEWLINE {
      assert available[..n] == available;
      LineEndSplits(available, behind);
    }
  }

  /** The verdict depends on the bytes alone, never on how they arrive, unless reading fails. */
  method Verify(s: Scheme, reader: Reader) returns (r: Result<Head, AuditError>)
    requires reader.Valid()
    modifies reader
    ensures r == VerifyFrom(s, START, old(reader.Rest())) || r == Err(Io)
    ensures old(reader.patience).None? ==> r == VerifyFrom(s, START, old(reader.Rest()))
  {
    var head := START;
    while true
      invariant reader.Valid() && (reader.patience.None? <==> old(reader.patience).None?)
      invariant VerifyFrom(s, head, reader.Rest()) == old(VerifyFrom(s, START, reader.Rest()))
      decreases |reader.Rest()|
    {
      ghost var bytes := reader.Rest();
      LineEndShape(bytes);
      var line := ReadLine(reader);
      if line.Err? { return Err(line.error); }
      if line.value == [] { return Ok(head); }
      if !Ended(line.value) { return Err(Invalid); }
      var record := s.decode(line.value);
      if record.None? { return Err(Json); }
      var next := Link(s, head, record.value);
      if next.Err? { return next; }
      head := next.value;
    }
  }

  // -----------------------------------------------------------------------------------------------------------------
  // Logs as lists of records
  // -----------------------------------------------------------------------------------------------------------------

  function Line(s: Scheme, r: Record): seq<byte> { s.encode(r) + [NEWLINE] }

  function LogBytes(s: Scheme, records: seq<Record>): seq<byte> {
    if records == [] then [] else Line(s, records[0]) + LogBytes(s, records[1..])
  }

  function VerifyRecords(s: Scheme, head: Head, records: seq<Record>): Result<Head, AuditError>
    decreases |records|
  {
    if records == [] then Ok(head)
    else
      var next := Link(s, head, records[0]);
      if next.Err? then next else VerifyRecords(s, next.value, records[1..])
  }

  ghost predicate Fits(s: Scheme, r: Record) { |Line(s, r)| <= MAX_LINE }

  lemma {:induction false} LineIsItsEncoding(s: Scheme, r: Record, rest: seq<byte>)
    requires Lawful(s)
    ensures LineEnd(Line(s, r) + rest) == |Line(s, r)| && Ended(Line(s, r)) && s.decode(Line(s, r)) == Some(r)
    ensures (Line(s, r) + rest)[..|Line(s, r)|] == Line(s, r) && (Line(s, r) + rest)[|Line(s, r)|..] == rest
  {
    LineEndSplits(s.encode(r), [NEWLINE] + rest);
    assert Line(s, r) + rest == s.encode(r) + ([NEWLINE] + rest);
  }

  /** One record's line at the front of a log is verified as that record. */
  lemma FirstLine(s: Scheme, head: Head, r: Record, rest: seq<byte>)
    requires Lawful(s)
    ensures VerifyFrom(s, head, Line(s, r) + rest)
            == if !Fits(s, r) then Err(Invalid)
               else if Link(s, head, r).Err? then Link(s, head, r) else VerifyFrom(s, Link(s, head, r).value, rest)
  {
    LineIsItsEncoding(s, r, rest);
  }

  /** Verifying the bytes of some records is verifying the records. */
  lemma {:induction false} BytesAreRecords(s: Scheme, head: Head, records: seq<Record>, rest: seq<byte>)
    requires Lawful(s) && forall r | r in records :: Fits(s, r)
    ensures VerifyFrom(s, head, LogBytes(s, records) + rest)
            == (var v := VerifyRecords(s, head, records); if v.Err? then v else VerifyFrom(s, v.value, rest))
    decreases |records|
  {
    if records == [] {
      assert [] + rest == rest;
    } else {
      var later := LogBytes(s, records[1..]);
      assert LogBytes(s, records) + rest == Line(s, records[0]) + (later + rest);
      assert Fits(s, records[0]);
      FirstLine(s, head, records[0], later + rest);
      var next := Link(s, head, records[0]);
      if next.Ok? { BytesAreRecords(s, next.value, records[1..], rest); }
    }
  }

  lemma {:induction false} VerifyInSteps(s: Scheme, head: Head, a: seq<Record>, b: seq<Record>)
    ensures VerifyRecords(s, head, a + b) == (var v := VerifyRecords(s, head, a); if v.Err? then v else VerifyRecords(s, v.value, b))
    decreases |a|
  {
    if a == [] {
      assert a + b == b;
    } else {
      assert (a + b)[1..] == a[1..] + b;
      var next := Link(s, head, a[0]);
      if next.Ok? { VerifyInSteps(s, next.value, a[1..], b); }
    }
  }

  /** The records an accepted log holds. */
  function Parse(s: Scheme, bytes: seq<byte>): Option<seq<Record>>
    decreases |bytes|
  {
    if bytes == [] then Some([])
    else
      var n := LineEnd(bytes);
      if !Ended(bytes[..n]) then None
      else
        var record, later := s.decode(bytes[..n]), Parse(s, bytes[n..]);
        if record.None? || later.None? then None else Some([record.value] + later.value)
  }

  /** Every accepted log, whoever wrote its bytes, holds records, and these are what was verified. */
  lemma {:induction false} AcceptedLogsParse(s: Scheme, head: Head, bytes: seq<byte>)
    requires VerifyFrom(s, head, bytes).Ok?
    ensures Parse(s, bytes).Some? && VerifyRecords(s, head, Parse(s, bytes).value) == VerifyFrom(s, head, bytes)
    decreases |bytes|
  {
    if bytes != [] {
      var n := LineEnd(bytes);
      var record := s.decode(bytes[..n]).value;
      var next := Link(s, head, record).value;
      AcceptedLogsParse(s, next, bytes[n..]);
      assert ([record] + Parse(s, bytes[n..]).value)[1..] == Parse(s, bytes[n..]).value;
    }
  }

  /** What the head says of an accepted list: how many records, and the last one's hash. */
  lemma {:induction false} HeadOfAccepted(s: Scheme, head: Head, records: seq<Record>)
    requires VerifyRecords(s, head, records).Ok?
    ensures var h := VerifyRecords(s, head, records).value;
            && h.records == head.records + |records|
            && h.hash == if records == [] then head.hash else RecordHash(s, records[|records| - 1])
    decreases |records|
  {
    if records != [] { HeadOfAccepted(s, Link(s, head, records[0]).value, records[1..]); }
  }

  /** An accepted list without its last record is accepted, and the last record continues it. */
  lemma LastLinks(s: Scheme, records: seq<Record>)
    requires VerifyRecords(s, START, records).Ok? && records != []
    ensures var front := VerifyRecords(s, START, records[..|records| - 1]);
            && front.Ok? && Link(s, front.value, records[|records| - 1]) == VerifyRecords(s, START, records)
            && records[|records| - 1].body.previous == front.value.hash
            && records[|records| - 1].body.sequence == front.value.records == |records| - 1
  {
    var front, last := records[..|records| - 1], records[|records| - 1];
    assert records == front + [last];
    VerifyInSteps(s, START, front, [last]);
    HeadOfAccepted(s, START, front);
  }

  lemma HashesDetermineRecords(s: Scheme, a: Record, b: Record)
    requires CollisionFree(s.hash) && Separable(s) && RecordHash(s, a) == RecordHash(s, b)
    ensures a == b
  {
    var x, y := Signable(s, a.body) + a.signature, Signable(s, b.body) + b.signature;
    assert x == y;
    assert x[|DOMAIN|..] == s.encodeBody(a.body) + a.signature && y[|DOMAIN|..] == s.encodeBody(b.body) + b.signature;
  }

  /** Two accepted lists with the same head are the same. */
  lemma {:induction false} SameHeadSameRecords(s: Scheme, a: seq<Record>, b: seq<Record>)
    requires CollisionFree(s.hash) && Separable(s)
    requires VerifyRecords(s, START, a).Ok? && VerifyRecords(s, START, a) == VerifyRecords(s, START, b)
    ensures a == b
    decreases |a|
  {
    HeadOfAccepted(s, START, a);
    HeadOfAccepted(s, START, b);
    if a != [] {
      var n := |a| - 1;
      HashesDetermineRecords(s, a[n], b[n]);
      LastLinks(s, a);
      LastLinks(s, b);
      SameHeadSameRecords(s, a[..n], b[..n]);
      assert a == a[..n] + [a[n]] && b == b[..n] + [b[n]];
    }
  }

  /** Two accepted logs with the same head, byte for byte whatever they are, hold the same records. */
  lemma SameHeadSameLog(s: Scheme, a: seq<byte>, b: seq<byte>)
    requires CollisionFree(s.hash) && Separable(s)
    requires VerifyFrom(s, START, a).Ok? && VerifyFrom(s, START, a) == VerifyFrom(s, START, b)
    ensures Parse(s, a).Some? && Parse(s, a) == Parse(s, b)
  {
    AcceptedLogsParse(s, START, a);
    AcceptedLogsParse(s, START, b);
    SameHeadSameRecords(s, Parse(s, a).value, Parse(s, b).value);
  }

  // -----------------------------------------------------------------------------------------------------------------
  // Tampering
  // -----------------------------------------------------------------------------------------------------------------

  /** The ideal law: a signature verifies only for a body that the writer signed, that is, one of its log. */
  ghost predicate OnlyWriterSigns(s: Scheme, written: seq<Record>, suspect: seq<Record>) {
    forall r | r in suspect && s.verifies(Signable(s, r.body), r.signature) :: exists i :: 0 <= i < |written| && written[i].body == r.body
  }

  /** A beginning of the writer's log, up to the signature of its last record, which no later record vouches for. */
  ghost predicate BeginningOf(s: Scheme, suspect: seq<Record>, written: seq<Record>) {
    && |suspect| <= |written|
    && (suspect != [] ==>
          var n := |suspect| - 1;
          && suspect[..n] == written[..n] && suspect[n].body == written[n].body
          && s.verifies(Signable(s, suspect[n].body), suspect[n].signature))
  }

  /** Every record of an accepted list carries its own index and a signature that verifies. */
  lemma {:induction false} AcceptedAt(s: Scheme, records: seq<Record>, i: nat)
    requires VerifyRecords(s, START, records).Ok? && i < |records|
    ensures records[i].body.sequence == i && s.verifies(Signable(s, records[i].body), records[i].signature)
    ensures records[i].body.previous == if i == 0 then START.hash else RecordHash(s, records[i - 1])
  {
    var head, tail := records[..i + 1], records[i + 1..];
    assert records == head + tail;
    VerifyInSteps(s, START, head, tail);
    LastLinks(s, head);
    assert head[..i] == records[..i];
    HeadOfAccepted(s, START, records[..i]);
  }

  lemma BodiesAreWritten(s: Scheme, written: seq<Record>, suspect: seq<Record>, i: nat)
    requires VerifyRecords(s, START, written).Ok? && OnlyWriterSigns(s, written, suspect)
    requires VerifyRecords(s, START, suspect).Ok? && i < |suspect|
    ensures i < |written| && suspect[i].body == written[i].body
  {
    AcceptedAt(s, suspect, i);
    assert suspect[i] in suspect;
    var j: int :| 0 <= j < |written| && written[j].body == suspect[i].body;
    AcceptedAt(s, written, j);
  }

  /** The next record's body vouches for a record's signature. */
  lemma EarlierRecordsAreWritten(s: Scheme, written: seq<Record>, suspect: seq<Record>, i: nat)
    requires CollisionFree(s.hash) && Separable(s) && VerifyRecords(s, START, written).Ok? && OnlyWriterSigns(s, written, suspect)
    requires VerifyRecords(s, START, suspect).Ok? && i + 1 < |suspect|
    ensures i + 1 < |written| && suspect[i] == written[i]
  {
    BodiesAreWritten(s, written, suspect, i + 1);
    AcceptedAt(s, suspect, i + 1);
    AcceptedAt(s, written, i + 1);
    HashesDetermineRecords(s, suspect[i], written[i]);
  }

  lemma AcceptedIsBeginning(s: Scheme, written: seq<Record>, suspect: seq<Record>)
    requires CollisionFree(s.hash) && Separable(s) && VerifyRecords(s, START, written).Ok? && OnlyWriterSigns(s, written, suspect)
    requires VerifyRecords(s, START, suspect).Ok?
    ensures BeginningOf(s, suspect, written)
  {
    if suspect != [] {
      var n: nat := |suspect| - 1;
      BodiesAreWritten(s, written, suspect, n);
      AcceptedAt(s, suspect, n);
      forall i: nat | i < n ensures suspect[i] == written[i] { EarlierRecordsAreWritten(s, written, suspect, i); }
      assert suspect[..n] == written[..n];
    }
  }

  lemma BeginningIsAccepted(s: Scheme, written: seq<Record>, suspect: seq<Record>)
    requires VerifyRecords(s, START, written).Ok? && BeginningOf(s, suspect, written)
    ensures VerifyRecords(s, START, suspect).Ok?
  {
    if suspect != [] {
      var n := |suspect| - 1;
      assert written == written[..n + 1] + written[n + 1..] && written[..n + 1][..n] == written[..n];
      VerifyInSteps(s, START, written[..n + 1], written[n + 1..]);
      LastLinks(s, written[..n + 1]);
      assert suspect == written[..n] + [suspect[n]];
      VerifyInSteps(s, START, written[..n], [suspect[n]]);
    }
  }

  /**
   Against the writer's log, a list of records is accepted if and only if it is a beginning of it. So a record removed
   before the end, moved or altered is always found, and so is any forged one; a missing tail is not.
   */
  lemma OnlyBeginningsAreAccepted(s: Scheme, written: seq<Record>, suspect: seq<Record>)
    requires CollisionFree(s.hash) && Separable(s) && VerifyRecords(s, START, written).Ok? && OnlyWriterSigns(s, written, suspect)
    ensures VerifyRecords(s, START, suspect).Ok? <==> BeginningOf(s, suspect, written)
  {
    if VerifyRecords(s, START, suspect).Ok? { AcceptedIsBeginning(s, written, suspect); }
    if BeginningOf(s, suspect, written) { BeginningIsAccepted(s, written, suspect); }
  }

  // -----------------------------------------------------------------------------------------------------------------
  // The writer
  // -----------------------------------------------------------------------------------------------------------------

  /** What one append does apart from the disk: the record, its line and the next head. */
  function NextRecord(s: Scheme, head: Head, event: nat, timestamp: nat): Record {
    var body := Body(1, head.records, timestamp, head.hash, event);
    Record(body, s.sign(Signable(s, body)))
  }

  lemma NextRecordLinks(s: Scheme, head: Head, event: nat, timestamp: nat)
    requires Lawful(s) && head.records < U64_MAX
    ensures var r := NextRecord(s, head, event, timestamp);
            Link(s, head, r) == Ok(Head(head.records + 1, RecordHash(s, r)))
  {
  }

  /** What some records are about: the events and their times. */
  function Entries(records: seq<Record>): seq<(nat, nat)> {
    seq(|records|, i requires 0 <= i < |records| => (records[i].body.event, records[i].body.timestamp))
  }

  lemma EntriesJoin(a: seq<Record>, b: seq<Record>)
    ensures Entries(a + b) == Entries(a) + Entries(b)
  {
  }

  /** One record more than before, of this event at this time, that continues the chain from a head. */
  ghost predicate Tells(s: Scheme, before: Option<seq<Record>>, after: Option<seq<Record>>, event: nat, time: nat, head: Head) {
    && before.Some? && after.Some? && |after.value| == |before.value| + 1 && after.value[..|before.value|] == before.value
    && var r := after.value[|before.value|];
       && r.body.event == event && r.body.timestamp == time
       && r.body.version == 1 && r.body.sequence == head.records && r.body.previous == head.hash
       && s.verifies(Signable(s, r.body), r.signature)
  }

  lemma {:induction false} ParseContinues(s: Scheme, head: Head, bytes: seq<byte>, more: seq<byte>)
    requires VerifyFrom(s, head, bytes).Ok? && Parse(s, more).Some?
    ensures Parse(s, bytes).Some? && Parse(s, bytes + more) == Some(Parse(s, bytes).value + Parse(s, more).value)
    decreases |bytes|
  {
    if bytes == [] {
      assert bytes + more == more && [] + Parse(s, more).value == Parse(s, more).value;
    } else {
      var n := LineEnd(bytes);
      LineEndInPrefix(bytes, more);
      assert (bytes + more)[..n] == bytes[..n] && (bytes + more)[n..] == bytes[n..] + more;
      var record := s.decode(bytes[..n]).value;
      ParseContinues(s, Link(s, head, record).value, bytes[n..], more);
      var later := Parse(s, bytes[n..]).value;
      assert [record] + (later + Parse(s, more).value) == [record] + later + Parse(s, more).value;
    }
  }

  lemma {:induction false} ParseOfLog(s: Scheme, records: seq<Record>)
    requires Lawful(s)
    ensures Parse(s, LogBytes(s, records)) == Some(records)
    decreases |records|
  {
    if records != [] {
      var later := LogBytes(s, records[1..]);
      LineIsItsEncoding(s, records[0], later);
      ParseOfLog(s, records[1..]);
      assert records == [records[0]] + records[1..];
    }
  }

  lemma ParseOfLine(s: Scheme, file: seq<byte>, head: Head, event: nat, time: nat)
    requires Lawful(s) && VerifyFrom(s, START, file) == Ok(head)
    ensures var next := NextRecord(s, head, event, time);
            Tells(s, Parse(s, file), Parse(s, file + Line(s, next)), event, time, head)
  {
    var next := NextRecord(s, head, event, time);
    ParseOfLog(s, [next]);
    assert LogBytes(s, [next]) == Line(s, next) + [] == Line(s, next);
    ParseContinues(s, START, file, Line(s, next));
  }

  class AuditLog {
    const s: Scheme
    var file: seq<byte>
    var head: Head
    var failed: bool
    /** The file as it was found, and the records appended since. */
    ghost const origin: seq<byte>
    ghost var records: seq<Record>
    /** The events handed in successfully since, with the times of the clock. */
    ghost var entries: seq<(nat, nat)>

    /** The file is what was found and the lines of the records, and it verifies to the head. */
    ghost predicate Valid()
      reads this
    {
      && Lawful(s) && head.records <= U64_MAX && origin + LogBytes(s, records) <= file
      && VerifyFrom(s, START, origin).Ok? && Entries(records) == entries
      && (!failed ==> file == origin + LogBytes(s, records) && VerifyFrom(s, START, file) == Ok(head))
    }

    constructor (s: Scheme, file: seq<byte>, head: Head)
      requires Lawful(s) && VerifyFrom(s, START, file) == Ok(head) && head.records <= U64_MAX
      ensures Valid() && !failed && this.file == file && this.head == head && records == [] && entries == [] && this.s == s && origin == file
    {
      this.s, this.file, this.head, failed, origin, records, entries := s, file, head, false, file, [], [];
      new;
      assert file + [] == file;
    }

    /**
     Appends one record, or nothing. A failed write may leave a beginning of the line behind, and no further append is
     accepted after it.
     */
    method Append(event: nat, clock: Option<nat>, writes: nat, syncs: bool) returns (r: Result<Head, AuditError>)
      requires Valid()
      modifies this
      ensures Valid()
      ensures clock.None? ==> r == Err(Invalid) && file == old(file)
      ensures clock.Some? ==>
                var next := NextRecord(s, old(head), event, clock.value);
                && (r.Ok? ==> !failed && file == old(file) + Line(s, next) && head == r.value
                              && head.records == old(head).records + 1 && records == old(records) + [next])
                && (r.Err? ==> old(file) <= file <= old(file) + Line(s, next))
      ensures r.Err? ==> head == old(head) && records == old(records) && (!failed ==> file == old(file))
      ensures r.Ok? ==> clock.Some? && Tells(s, old(Parse(s, file)), Parse(s, file), event, clock.value, old(head))
      ensures entries == old(entries) + if r.Ok? && clock.Some? then [(event, clock.value)] else []
      ensures r.Ok? <==>
                !old(failed) && clock.Some? && old(head).records < U64_MAX && syncs
                && var size := |Line(s, NextRecord(s, old(head), event, clock.value))|; size <= MAX_LINE && size <= writes
      ensures failed <==> old(failed) || r == Err(Io)
      ensures old(failed) ==> r == Err(Invalid) && file == old(file)
    {
      assert entries + [] == entries;
      if failed { return Err(Invalid); }
      if head.records == U64_MAX { return Err(Invalid); }
      if clock.None? { return Err(Invalid); }
      var record := NextRecord(s, head, event, clock.value);
      var bytes := Line(s, record);
      if |bytes| > MAX_LINE { return Err(Invalid); }
      if writes < |bytes| || !syncs {
        var n := if writes < |bytes| then writes else |bytes|;
        file, failed := file + bytes[..n], true;
        return Err(Io);
      }
      NextRecordLinks(s, head, event, clock.value);
      AppendVerifies(s, file, head, record);
      LogBytesAppend(s, origin, records, record);
      ParseOfLine(s, file, head, event, clock.value);
      EntriesJoin(records, [record]);
      file := file + bytes;
      head := Head(head.records + 1, RecordHash(s, record));
      records, entries := records + [record], entries + [(event, clock.value)];
      return Ok(head);
    }
  }

  /** Over any run of appends: what the file tells is what it told when it was opened, and the events appended, in order. */
  lemma LogTellsItsRun(log: AuditLog)
    requires log.Valid() && !log.failed
    ensures Parse(log.s, log.origin).Some? && Parse(log.s, log.file).Some?
    ensures Entries(Parse(log.s, log.file).value) == Entries(Parse(log.s, log.origin).value) + log.entries
    ensures Parse(log.s, log.origin).value <= Parse(log.s, log.file).value
  {
    ParseOfLog(log.s, log.records);
    var head := VerifyFrom(log.s, START, log.origin).value;
    ParseContinues(log.s, START, log.origin, LogBytes(log.s, log.records));
    EntriesJoin(Parse(log.s, log.origin).value, log.records);
  }

  lemma {:induction false} LogBytesAppend(s: Scheme, origin: seq<byte>, records: seq<Record>, r: Record)
    ensures origin + LogBytes(s, records + [r]) == origin + LogBytes(s, records) + Line(s, r)
    decreases |records|
  {
    if records == [] {
      assert [] + [r] == [r] && [r][1..] == [];
      assert Line(s, r) + [] == Line(s, r);
    } else {
      assert (records + [r])[1..] == records[1..] + [r];
      LogBytesAppend(s, Line(s, records[0]), records[1..], r);
      assert origin + (Line(s, records[0]) + LogBytes(s, records[1..])) + Line(s, r)
          == origin + (Line(s, records[0]) + LogBytes(s, records[1..]) + Line(s, r));
    }
  }

  lemma {:induction false} RecordsAreCounted(s: Scheme, head: Head, bytes: seq<byte>)
    requires VerifyFrom(s, head, bytes).Ok? && head.records <= U64_MAX
    ensures VerifyFrom(s, head, bytes).value.records <= U64_MAX
    decreases |bytes|
  {
    if bytes != [] {
      var n := LineEnd(bytes);
      RecordsAreCounted(s, Link(s, head, s.decode(bytes[..n]).value).value, bytes[n..]);
    }
  }

  /** Opens a log that verifies, and no other. */
  method OpenLog(s: Scheme, chunks: seq<seq<byte>>, patience: Option<nat>) returns (r: Result<AuditLog, AuditError>)
    requires Lawful(s) && forall c | c in chunks :: c != []
    ensures r.Ok? ==> fresh(r.value) && r.value.Valid() && !r.value.failed && r.value.s == s && r.value.file == Concat(chunks)
    ensures r.Ok? ==> r.value.origin == Concat(chunks) && r.value.entries == []
    ensures r.Ok? ==> VerifyFrom(s, START, Concat(chunks)) == Ok(r.value.head)
    ensures r.Err? ==> r.error.Io? || VerifyFrom(s, START, Concat(chunks)) == Err(r.error)
    ensures patience.None? ==> (r.Ok? <==> VerifyFrom(s, START, Concat(chunks)).Ok?)
  {
    var reader := new Reader(chunks, patience);
    var head := Verify(s, reader);
    if head.Err? { return Err(head.error); }
    RecordsAreCounted(s, START, Concat(chunks));
    var log := new AuditLog(s, Concat(chunks), head.value);
    return Ok(log);
  }

  /** What follows an accepted log is verified from its head on. */
  lemma {:induction false} VerifyContinues(s: Scheme, head: Head, bytes: seq<byte>, more: seq<byte>)
    requires VerifyFrom(s, head, bytes).Ok?
    ensures VerifyFrom(s, head, bytes + more) == VerifyFrom(s, VerifyFrom(s, head, bytes).value, more)
    decreases |bytes|
  {
    if bytes == [] {
      assert bytes + more == more;
    } else {
      var n := LineEnd(bytes);
      LineEndInPrefix(bytes, more);
      assert (bytes + more)[..n] == bytes[..n] && (bytes + more)[n..] == bytes[n..] + more;
      VerifyContinues(s, Link(s, head, s.decode(bytes[..n]).value).value, bytes[n..], more);
    }
  }

  lemma AppendVerifies(s: Scheme, file: seq<byte>, head: Head, record: Record)
    requires Lawful(s) && VerifyFrom(s, START, file) == Ok(head) && Fits(s, record) && Link(s, head, record).Ok?
    ensures VerifyFrom(s, START, file + Line(s, record)) == Link(s, head, record)
  {
    VerifyContinues(s, START, file, Line(s, record));
    FirstLine(s, head, record, []);
    assert Line(s, record) + [] == Line(s, record);
  }

  /** After a torn append the log opens again exactly if nothing or the whole line reached the disk. */
  lemma TornAppendIsFound(s: Scheme, file: seq<byte>, head: Head, record: Record, n: nat)
    requires Lawful(s) && VerifyFrom(s, START, file) == Ok(head) && Fits(s, record) && Link(s, head, record).Ok?
    requires n <= |Line(s, record)|
    ensures VerifyFrom(s, START, file + Line(s, record)[..n])
            == if n == 0 then Ok(head) else if n == |Line(s, record)| then Link(s, head, record) else Err(Invalid)
  {
    var torn := Line(s, record)[..n];
    VerifyContinues(s, START, file, torn);
    if n == |Line(s, record)| {
      assert torn == Line(s, record);
      AppendVerifies(s, file, head, record);
    } else if n > 0 {
      assert torn == s.encode(record)[..n];
      LineEndSplits(torn, []);
      assert torn + [] == torn && torn[..n] == torn;
      assert torn[n - 1] == s.encode(record)[n - 1];
    }
  }
}
