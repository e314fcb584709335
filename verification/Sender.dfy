/** The sending side as it runs: offer or resume, check the stored prefix, stream the rest, commit. */
module Sender {
  import opened Wrappers
  import opened Names
  import opened Files
  import opened Endpoint
  import R = Resumption

  predicate Waiting(s: R.Sender) { s.AwaitReady? || s.AwaitProgress? || s.AwaitComplete? }

  /** Everything an honest sender says, given the replies it will receive; they may run out when the connection dies. */
  function Dialogue(s: R.Sender, replies: seq<Message>, hash: seq<byte> -> Digest): (seq<Message>, R.Sender)
    decreases |replies|
  {
    var spoken := R.Speak(s, hash);
    var (now, said) := if spoken.Some? then (spoken.value.0, [spoken.value.1]) else (s, []);
    if !Waiting(now) || replies == [] then (said, now)
    else
      var (rest, end) := Dialogue(R.Listen(now, replies[0], hash), replies[1..], hash);
      (said + rest, end)
  }

  /** Hashing the first `offset` bytes of the local file in chunks. */
  method HashPrefix(file: seq<byte>, offset: nat, hash: seq<byte> -> Digest) returns (digest: Digest)
    requires offset <= |file|
    ensures digest == hash(file[..offset])
  {
    var absorbed: seq<byte>, remaining := [], offset;
    while remaining > 0
      invariant 0 <= remaining <= offset && absorbed == file[..offset - remaining]
    {
      var length := if remaining < CHUNK_SIZE then remaining else CHUNK_SIZE;
      absorbed := absorbed + file[|absorbed|..|absorbed| + length];
      remaining := remaining - length;
    }
    digest := hash(absorbed);
  }

  /** A sender that has given up or succeeded says no more. */
  lemma SilentEnding(s: R.Sender, replies: seq<Message>, hash: seq<byte> -> Digest)
    requires s.GaveUp? || s.Succeeded?
    ensures Dialogue(s, replies, hash) == ([], s)
  {
  }

  /** One spoken message and its reply, when both are there. */
  lemma Exchange(s: R.Sender, replies: seq<Message>, hash: seq<byte> -> Digest)
    requires R.Speak(s, hash).Some? && replies != []
    ensures var (now, said) := R.Speak(s, hash).value;
            var (rest, end) := Dialogue(R.Listen(now, replies[0], hash), replies[1..], hash);
            Waiting(now) && Dialogue(s, replies, hash) == ([said] + rest, end)
  {
  }

  /** `whole` is what has been said so far, followed by the rest of the dialogue. */
  ghost predicate Extends(whole: (seq<Message>, R.Sender), said: seq<Message>, rest: (seq<Message>, R.Sender)) {
    whole == (said + rest.0, rest.1)
  }

  lemma StreamingStep(whole: (seq<Message>, R.Sender), said: seq<Message>, source: R.Source, offset: nat, replies: seq<Message>,
                      i: nat, hash: seq<byte> -> Digest)
    requires offset < |source.bytes| && i < |replies|
    requires Extends(whole, said, Dialogue(R.Sending(source, offset), replies[i..], hash))
    ensures var bytes := R.ChunkAt(source, offset);
            var heard := R.Listen(R.AwaitProgress(source, offset + |bytes|), replies[i], hash);
            Extends(whole, said + [Chunk(offset, bytes, hash(bytes))], Dialogue(heard, replies[i + 1..], hash))
  {
    var bytes := R.ChunkAt(source, offset);
    Exchange(R.Sending(source, offset), replies[i..], hash);
    assert replies[i..][0] == replies[i] && replies[i..][1..] == replies[i + 1..];
    var heard := R.Listen(R.AwaitProgress(source, offset + |bytes|), replies[i], hash);
    var chunk, rest := Chunk(offset, bytes, hash(bytes)), Dialogue(heard, replies[i + 1..], hash).0;
    assert said + ([chunk] + rest) == said + [chunk] + rest;
  }

  /** Stream the file from `offset`, one acknowledged chunk at a time, then commit. */
  method Stream(source: R.Source, from: nat, replies: seq<Message>, hash: seq<byte> -> Digest)
    returns (sent: seq<Message>, ghost end: R.Sender, ok: bool)
    requires from <= |source.bytes|
    ensures (sent, end) == Dialogue(R.Sending(source, from), replies, hash)
    ensures ok <==> end == R.Succeeded(source)
  {
    sent := [];
    var offset, i := from, 0;
    ghost var whole := Dialogue(R.Sending(source, from), replies, hash);
    assert replies[0..] == replies && [] + whole.0 == whole.0;
    while offset < |source.bytes|
      invariant 0 <= i <= |replies| && offset <= |source.bytes|
      invariant Extends(whole, sent, Dialogue(R.Sending(source, offset), replies[i..], hash))
      decreases |source.bytes| - offset
    {
      var bytes := if |source.bytes| - offset < CHUNK_SIZE then source.bytes[offset..] else source.bytes[offset..offset + CHUNK_SIZE];
      var chunk := Chunk(offset, bytes, hash(bytes));
      if i == |replies| {
        end := R.AwaitProgress(source, offset + |bytes|);
        return sent + [chunk], end, false;
      }
      StreamingStep(whole, sent, source, offset, replies, i, hash);
      sent := sent + [chunk];
      offset := offset + |bytes|;
      if replies[i] != Progress(offset) {
        end := R.GaveUp;
        SilentEnding(end, replies[i + 1..], hash);
        assert sent + [] == sent;
        return sent, end, false;
      }
      i := i + 1;
    }
    if i == |replies| {
      end := R.AwaitComplete(source);
      return sent + [Commit], end, false;
    }
    Exchange(R.Sending(source, offset), replies[i..], hash);
    assert replies[i..][0] == replies[i];
    end := R.Listen(R.AwaitComplete(source), replies[i], hash);
    SilentEnding(end, replies[i..][1..], hash);
    assert [Commit] + [] == [Commit];
    return sent + [Commit], end, replies[i] == Complete(R.Describe(source, hash));
  }

  method SendFile(source: R.Source, resume: Option<TransferId>, replies: seq<Message>, hash: seq<byte> -> Digest)
    returns (sent: seq<Message>, ghost end: R.Sender, r: Result<Manifest, EndpointError>)
    ensures (sent, end) == Dialogue(R.Offering(source, resume), replies, hash)
    ensures r.Ok? <==> end == R.Succeeded(source)
    ensures r.Ok? ==> r.value == R.Describe(source, hash)
  {
    if !ValidName(source.name) || |source.bytes| > MAX_FILE_SIZE {
      end := R.Offering(source, resume);
      return [], end, Err(FileFailed(Invalid));
    }
    var manifest := R.Describe(source, hash);
    var opening := if resume.Some? then Resume(resume.value) else FileOffer(manifest);
    sent := [opening];
    if replies == [] {
      end := R.AwaitReady(source);
      return sent, end, Err(ConnectionFailed);
    }
    Exchange(R.Offering(source, resume), replies, hash);
    end := R.Listen(R.AwaitReady(source), replies[0], hash);
    var ready := replies[0];
    var matching := ready.Ready? && ready.manifest == manifest && ready.offset <= manifest.size;
    var digest: Digest := [];
    if matching { digest := HashPrefix(source.bytes, ready.offset, hash); }
    if !matching || digest != ready.prefixHash {
      SilentEnding(end, replies[1..], hash);
      assert sent + [] == sent;
      return sent, end, Err(if matching then FileFailed(Integrity) else InvalidOperation);
    }
    var rest, ok;
    rest, end, ok := Stream(source, ready.offset, replies[1..], hash);
    return sent + rest, end, if ok then Ok(manifest) else Err(InvalidOperation);
  }
}
