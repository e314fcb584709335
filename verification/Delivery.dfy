/** Transfers that are left in peace arrive: whatever the order of all steps, such a session only moves forward, and ends. */
module Delivery {
  import opened Wrappers
  import opened Names
  import opened Files
  import opened Endpoint
  import opened DirectoryInvariant
  import opened Resumption

  // -----------------------------------------------------------------------------------------------------------------
  // Calm schedules
  // -----------------------------------------------------------------------------------------------------------------

  /** Circumstances in which nothing fails; the window of the flood bound may or may not have elapsed. */
  function Calm(id: TransferId, elapsed: bool): Env { Env(IoPlan(9, 0, true, true), id, None, elapsed, true, true) }

  /** The two ends and the network do their part in any order; an identifier drawn for an offer is a fresh one. */
  predicate CalmMove(m: Move, d: Disk, resume: Option<TransferId>) {
    || m.SenderSpeaks? || m.SenderListens?
    || (m.Deliver? && m.env == Calm(m.env.id, m.env.windowElapsed)
        && (resume.None? ==> Part(m.env.id) !in d.names && m.env.id !in d.records))
  }

  // -----------------------------------------------------------------------------------------------------------------
  // The phases of a transfer
  // -----------------------------------------------------------------------------------------------------------------

  /** Where a transfer is: which end has what to do next. */
  datatype Phase =
    | Offers | Asked | Answered(offset: nat) | Streams(offset: nat) | Sends(offset: nat, bytes: seq<byte>) | Acked(offset: nat)
    | Commits | Informed | Finished

  /** What is being transferred, by whom, and whether it continues a stored part. */
  datatype Task = Task(source: Source, resume: Option<TransferId>, peer: Key)

  function FirstMessage(k: Task, hash: seq<byte> -> Digest): Message {
    if k.resume.Some? then Resume(k.resume.value) else FileOffer(Describe(k.source, hash))
  }

  predicate AnswersWell(m: Message, source: Source, offset: nat, hash: seq<byte> -> Digest) {
    m.Ready? && m.manifest == Describe(source, hash) && m.offset == offset <= |source.bytes| && m.prefixHash == hash(source.bytes[..offset])
  }

  predicate Says(s: Session, m: Message) { s.toReceiver == [m] && s.toSender == [] }

  predicate Hears(s: Session, m: Message) { s.toReceiver == [] && s.toSender == [m] }

  /** The part that is to be continued is there. */
  ghost predicate Startable(d: Disk, k: Task, hash: seq<byte> -> Digest) {
    k.resume.Some? ==> Stored(d, k.resume.value, k.peer, k.source, hash)
  }

  ghost predicate At(d: Disk, s: Session, p: Phase, k: Task, hash: seq<byte> -> Digest) {
    match p
    case Offers => s.sender == Offering(k.source, k.resume) && Quiet(s) && s.serving && Startable(d, k, hash)
    case Asked => s.sender == AwaitReady(k.source) && Says(s, FirstMessage(k, hash)) && s.serving && Startable(d, k, hash)
    case Answered(offset) =>
      s.sender == AwaitReady(k.source) && |s.toSender| == 1 && AnswersWell(s.toSender[0], k.source, offset, hash) && Hears(s, s.toSender[0])
    case Streams(offset) => s.sender == Sending(k.source, offset) && Quiet(s) && offset <= |k.source.bytes|
    case Sends(offset, bytes) =>
      && s.sender == AwaitProgress(k.source, offset + |bytes|) && Says(s, Chunk(offset, bytes, hash(bytes))) && s.serving
      && 0 < |bytes| <= CHUNK_SIZE && offset + |bytes| <= |k.source.bytes|
    case Acked(offset) => s.sender == AwaitProgress(k.source, offset) && Hears(s, Progress(offset)) && offset <= |k.source.bytes|
    case Commits => s.sender == AwaitComplete(k.source) && Says(s, Commit) && s.serving
    case Informed => s.sender == AwaitComplete(k.source) && Hears(s, Complete(Describe(k.source, hash)))
    case Finished => s.sender == Succeeded(k.source) && Quiet(s)
  }

  function Pieces(n: nat): nat { (n + CHUNK_SIZE - 1) / CHUNK_SIZE }

  /** How many messages the receiver has still to handle. */
  function ToHandle(p: Phase, n: nat): nat {
    match p
    case Offers => Pieces(n) + 2
    case Asked => Pieces(n) + 2
    case Answered(offset) => if offset <= n then Pieces(n - offset) + 1 else 0
    case Streams(offset) => if offset <= n then Pieces(n - offset) + 1 else 0
    case Sends(offset, bytes) => if offset + |bytes| <= n then Pieces(n - offset - |bytes|) + 2 else 0
    case Acked(offset) => if offset <= n then Pieces(n - offset) + 1 else 0
    case Commits => 1
    case Informed => 0
    case Finished => 0
  }

  /** The flood bound is out of reach. */
  predicate WithinBound(operations: nat, p: Phase, n: nat) { operations + ToHandle(p, n) <= Pieces(DEFAULT_RECEIVE_LIMIT) + 2 }

  predicate Legal(k: Task) { ValidName(k.source.name) && |k.source.bytes| <= DEFAULT_RECEIVE_LIMIT }

  /** A stored part of this source, by this peer, that nobody is writing. */
  ghost predicate Stored(d: Disk, id: TransferId, peer: Key, source: Source, hash: seq<byte> -> Digest) {
    && PartOf(d, id).Some? && PartOf(d, id).value !in d.locked
    && RecordOf(d, id) == Some(Metadata(1, peer, Describe(source, hash)))
  }

  /** The session is on its way: sound, permitted, in a phase, and its file name free until it is published. */
  ghost predicate OnTrack(w: World, sid: nat, p: Phase, k: Task, hash: seq<byte> -> Digest, honest: set<Key>) {
    && WorldInv(w, hash, honest) && sid in w.sessions && k.peer in honest && Legal(k)
    && w.sessions[sid].peer == k.peer && w.sessions[sid].grant.files && At(w.disk, w.sessions[sid], p, k, hash)
    && WithinBound(w.sessions[sid].operations, p, |k.source.bytes|)
    && (p.Informed? || p.Finished? || Plain(k.source.name) !in w.disk.names)
  }

  /** A number that every effective move lowers. */
  function Rank(p: Phase, n: nat): nat {
    match p
    case Offers => 4 * n + 8
    case Asked => 4 * n + 7
    case Answered(offset) => if offset <= n then 4 * (n - offset) + 6 else 0
    case Streams(offset) => if offset <= n then 4 * (n - offset) + 5 else 0
    case Sends(offset, bytes) => if offset <= n then 4 * (n - offset) + 4 else 0
    case Acked(offset) => if offset <= n then 4 * (n - offset) + 6 else 0
    case Commits => 3
    case Informed => 2
    case Finished => 0
  }

  // -----------------------------------------------------------------------------------------------------------------
  // One move
  // -----------------------------------------------------------------------------------------------------------------

  lemma SessionIsUsable(w: World, sid: nat, hash: seq<byte> -> Digest, honest: set<Key>)
    requires WorldInv(w, hash, honest) && sid in w.sessions
    ensures Usable(Serving(w, w.sessions[sid]))
  {
    assert SessionInv(w.disk, w.sessions[sid], hash, honest);
  }

  lemma OneStep(w: World, sid: nat, move: Move, hash: seq<byte> -> Digest, honest: set<Key>) returns (w': World)
    requires WorldInv(w, hash, honest) && CollisionFree(hash) && sid in w.sessions && Usable(Serving(w, w.sessions[sid]))
    ensures w' == Perform(w, sid, move, hash, honest) && WorldInv(w', hash, honest)
  {
    w' := Perform(w, sid, move, hash, honest);
    PerformKeeps(w, sid, move, hash, honest);
  }

  /** What speaking does to the session. */
  lemma Spoken(w: World, sid: nat, now: Sender, said: Message, hash: seq<byte> -> Digest, honest: set<Key>) returns (w': World)
    requires WorldInv(w, hash, honest) && CollisionFree(hash) && sid in w.sessions && Usable(Serving(w, w.sessions[sid]))
    requires Quiet(w.sessions[sid]) && Speak(w.sessions[sid].sender, hash) == Some((now, said))
    ensures w' == Perform(w, sid, SenderSpeaks, hash, honest) && WorldInv(w', hash, honest)
    ensures w'.disk == w.disk && sid in w'.sessions && w'.sessions[sid] == w.sessions[sid].(sender := now, toReceiver := [said])
  {
    w' := OneStep(w, sid, SenderSpeaks, hash, honest);
    assert [] + [said] == [said];
  }

  lemma Heard(w: World, sid: nat, reply: Message, hash: seq<byte> -> Digest, honest: set<Key>) returns (w': World)
    requires WorldInv(w, hash, honest) && CollisionFree(hash) && sid in w.sessions && Usable(Serving(w, w.sessions[sid]))
    requires Hears(w.sessions[sid], reply) && !w.sessions[sid].sender.Hostile?
    ensures w' == Perform(w, sid, SenderListens, hash, honest) && WorldInv(w', hash, honest)
    ensures w'.disk == w.disk && sid in w'.sessions
    ensures w'.sessions[sid] == w.sessions[sid].(sender := Listen(w.sessions[sid].sender, reply, hash), toSender := [])
  {
    w' := OneStep(w, sid, SenderListens, hash, honest);
  }

  lemma Handled(w: World, sid: nat, said: Message, env: Env, end: State, flow: Flow, hash: seq<byte> -> Digest, honest: set<Key>)
    returns (w': World)
    requires WorldInv(w, hash, honest) && CollisionFree(hash) && sid in w.sessions && Usable(Serving(w, w.sessions[sid]))
    requires var s := w.sessions[sid];
             s.serving && Says(s, said) && Iterate(Serving(w, s), s.grant, s.peer, hash, said, env) == (end, flow)
    ensures w' == Perform(w, sid, Deliver(env), hash, honest) && WorldInv(w', hash, honest)
    ensures w'.disk == end.disk && sid in w'.sessions
    ensures var s := w.sessions[sid];
            w'.sessions[sid] == Session(s.peer, s.grant, [], end.sent, end.transfer, end.operations, flow.Continue?, s.sender)
  {
    w' := OneStep(w, sid, Deliver(env), hash, honest);
    assert [] + end.sent == end.sent;
  }

  // -----------------------------------------------------------------------------------------------------------------
  // What the receiver answers when nothing fails
  // -----------------------------------------------------------------------------------------------------------------

  predicate Admitted(s: State, env: Env) { Counted(s, env).operations <= MAX_OPERATIONS }

  lemma CalmOffer(s: State, g: Rights, peer: Key, hash: seq<byte> -> Digest, manifest: Manifest, env: Env) returns (end: State)
    requires Usable(s) && s.transfer.None? && s.sent == [] && g.files && ValidName(manifest.name)
    requires env == Calm(env.id, env.windowElapsed) && Admitted(s, env)
    requires manifest.size <= DEFAULT_RECEIVE_LIMIT && Plain(manifest.name) !in s.disk.names
    requires Part(env.id) !in s.disk.names && env.id !in s.disk.records
    ensures Iterate(s, g, peer, hash, FileOffer(manifest), env) == (end, Continue) && end.operations == Counted(s, env).operations
    ensures end.sent == [Ready(env.id, 0, hash([]), manifest)] && Plain(manifest.name) !in end.disk.names
  {
    end := Iterate(s, g, peer, hash, FileOffer(manifest), env).0;
  }

  lemma CalmResume(s: State, g: Rights, peer: Key, hash: seq<byte> -> Digest, source: Source, stored: TransferId, env: Env)
    returns (end: State)
    requires Usable(s) && s.transfer.None? && s.sent == [] && g.files && ValidName(source.name)
    requires env == Calm(env.id, env.windowElapsed) && Admitted(s, env)
    requires |source.bytes| <= DEFAULT_RECEIVE_LIMIT && Stored(s.disk, stored, peer, source, hash)
    requires |Content(s.disk, PartOf(s.disk, stored).value)| <= |source.bytes|
    ensures Iterate(s, g, peer, hash, Resume(stored), env) == (end, Continue) && end.operations == Counted(s, env).operations
    ensures var content := Content(s.disk, PartOf(s.disk, stored).value);
            end.sent == [Ready(stored, |content|, hash(content), Describe(source, hash))] && end.disk.names == s.disk.names
  {
    end := Iterate(s, g, peer, hash, Resume(stored), env).0;
  }

  lemma CalmChunk(s: State, g: Rights, peer: Key, hash: seq<byte> -> Digest, bytes: seq<byte>, offset: nat, env: Env)
    returns (end: State)
    requires Usable(s) && s.transfer.Some? && s.sent == [] && g.files && s.transfer.value.offset == offset
    requires env == Calm(env.id, env.windowElapsed) && Admitted(s, env)
    requires 0 < |bytes| <= CHUNK_SIZE && offset + |bytes| <= s.transfer.value.metadata.manifest.size
    ensures Iterate(s, g, peer, hash, Chunk(offset, bytes, hash(bytes)), env) == (end, Continue)
    ensures end.operations == Counted(s, env).operations
    ensures end.sent == [Progress(offset + |bytes|)] && end.disk.names == s.disk.names
  {
    end := Iterate(s, g, peer, hash, Chunk(offset, bytes, hash(bytes)), env).0;
  }

  lemma CalmCommit(s: State, g: Rights, peer: Key, hash: seq<byte> -> Digest, env: Env) returns (end: State)
    requires Usable(s) && s.transfer.Some? && s.sent == [] && g.files && Owns(s.disk, s.transfer.value, peer)
    requires env == Calm(env.id, env.windowElapsed) && Admitted(s, env)
    requires var t := s.transfer.value;
             && t.offset == t.metadata.manifest.size && hash(s.disk.files[t.inode]) == t.metadata.manifest.sha256
             && Plain(t.metadata.manifest.name) !in s.disk.names
    ensures Iterate(s, g, peer, hash, Commit, env) == (end, Done) && end.operations == Counted(s, env).operations
    ensures end.sent == [Complete(s.transfer.value.metadata.manifest)]
  {
    var t := s.transfer.value;
    assert PartOf(s.disk, t.id).Some? && RecordOf(s.disk, t.id).Some?;
    end := Iterate(s, g, peer, hash, Commit, env).0;
  }

  /** What an honest peer's live transfer has stored is that much of its source. */
  lemma StoredIsPrefix(d: Disk, t: Transfer, peer: Key, source: Source, hash: seq<byte> -> Digest, honest: set<Key>)
    requires DiskInv(d, hash, honest) && Owns(d, t, peer) && peer in honest && t.metadata.manifest == Describe(source, hash)
    ensures d.files[t.inode] <= source.bytes
  {
    assert PartOf(d, t.id).Some? && RecordOf(d, t.id).value.owner in honest;
    assert PrefixOfSource(Content(d, t.inode), hash, t.metadata.manifest.sha256);
    assert hash(source.bytes) == t.metadata.manifest.sha256;
  }

  /** What a live transfer of an honest peer holds while its chunk or commit is under way. */
  lemma LiveTransfer(w: World, sid: nat, p: Phase, k: Task, hash: seq<byte> -> Digest, honest: set<Key>) returns (t: Transfer)
    requires OnTrack(w, sid, p, k, hash, honest) && (p.Sends? || p.Commits?)
    ensures var s := w.sessions[sid];
            && s.transfer == Some(t) && Owns(w.disk, t, k.peer) && Usable(Serving(w, s))
            && t.metadata.manifest == Describe(k.source, hash) && t.offset == if p.Sends? then p.offset else |k.source.bytes|
  {
    SessionIsUsable(w, sid, hash, honest);
    assert SessionInv(w.disk, w.sessions[sid], hash, honest);
    t := w.sessions[sid].transfer.value;
  }

  lemma CountStaysLow(s: Session, w: World, env: Env, p: Phase, n: nat)
    requires WithinBound(s.operations, p, n) && ToHandle(p, n) > 0 && n <= DEFAULT_RECEIVE_LIMIT
    ensures Admitted(Serving(w, s), env)
    ensures Counted(Serving(w, s), env).operations + ToHandle(p, n) <= Pieces(DEFAULT_RECEIVE_LIMIT) + 3
  {
  }

  // -----------------------------------------------------------------------------------------------------------------
  // Every calm move leads to the next phase, or changes nothing
  // -----------------------------------------------------------------------------------------------------------------

  lemma NextChunk(source: Source, offset: nat) returns (bytes: seq<byte>)
    requires offset < |source.bytes|
    ensures bytes == ChunkAt(source, offset) && 0 < |bytes| <= CHUNK_SIZE && offset + |bytes| <= |source.bytes|
    ensures Pieces(|source.bytes| - offset - |bytes|) + 1 == Pieces(|source.bytes| - offset)
  {
    bytes := ChunkAt(source, offset);
  }

  lemma OfferIsSpoken(w: World, sid: nat, k: Task, hash: seq<byte> -> Digest, honest: set<Key>) returns (w': World)
    requires OnTrack(w, sid, Offers, k, hash, honest) && CollisionFree(hash) && Usable(Serving(w, w.sessions[sid]))
    ensures w' == Perform(w, sid, SenderSpeaks, hash, honest) && OnTrack(w', sid, Asked, k, hash, honest)
  {
    w' := Spoken(w, sid, AwaitReady(k.source), FirstMessage(k, hash), hash, honest);
  }

  lemma ChunkIsSpoken(w: World, sid: nat, offset: nat, k: Task, hash: seq<byte> -> Digest, honest: set<Key>)
    returns (w': World, bytes: seq<byte>)
    requires OnTrack(w, sid, Streams(offset), k, hash, honest) && CollisionFree(hash) && Usable(Serving(w, w.sessions[sid]))
    requires offset < |k.source.bytes|
    ensures w' == Perform(w, sid, SenderSpeaks, hash, honest) && OnTrack(w', sid, Sends(offset, bytes), k, hash, honest)
  {
    bytes := NextChunk(k.source, offset);
    SaysChunk(k.source, offset, bytes, hash);
    StreamsAreServed(w, sid, offset, k, hash, honest);
    w' := ChunkUnderWay(w, sid, offset, bytes, k, hash, honest);
  }

  lemma SaysChunk(source: Source, offset: nat, bytes: seq<byte>, hash: seq<byte> -> Digest)
    requires offset < |source.bytes| && bytes == ChunkAt(source, offset)
    ensures Speak(Sending(source, offset), hash) == Some((AwaitProgress(source, offset + |bytes|), Chunk(offset, bytes, hash(bytes))))
  {
  }

  lemma ChunkUnderWay(w: World, sid: nat, offset: nat, bytes: seq<byte>, k: Task, hash: seq<byte> -> Digest, honest: set<Key>)
    returns (w': World)
    requires OnTrack(w, sid, Streams(offset), k, hash, honest) && CollisionFree(hash) && Usable(Serving(w, w.sessions[sid]))
    requires 0 < |bytes| <= CHUNK_SIZE && offset + |bytes| <= |k.source.bytes| && w.sessions[sid].serving
    requires Pieces(|k.source.bytes| - offset - |bytes|) + 1 == Pieces(|k.source.bytes| - offset)
    requires Speak(Sending(k.source, offset), hash) == Some((AwaitProgress(k.source, offset + |bytes|), Chunk(offset, bytes, hash(bytes))))
    ensures w' == Perform(w, sid, SenderSpeaks, hash, honest) && OnTrack(w', sid, Sends(offset, bytes), k, hash, honest)
  {
    w' := Spoken(w, sid, AwaitProgress(k.source, offset + |bytes|), Chunk(offset, bytes, hash(bytes)), hash, honest);
  }

  lemma StreamsAreServed(w: World, sid: nat, offset: nat, k: Task, hash: seq<byte> -> Digest, honest: set<Key>)
    requires OnTrack(w, sid, Streams(offset), k, hash, honest)
    ensures w.sessions[sid].serving
  {
    assert SessionInv(w.disk, w.sessions[sid], hash, honest);
  }

  lemma CommitIsSpoken(w: World, sid: nat, k: Task, hash: seq<byte> -> Digest, honest: set<Key>) returns (w': World)
    requires OnTrack(w, sid, Streams(|k.source.bytes|), k, hash, honest) && CollisionFree(hash) && Usable(Serving(w, w.sessions[sid]))
    ensures w' == Perform(w, sid, SenderSpeaks, hash, honest) && OnTrack(w', sid, Commits, k, hash, honest)
  {
    StreamsAreServed(w, sid, |k.source.bytes|, k, hash, honest);
    w' := Spoken(w, sid, AwaitComplete(k.source), Commit, hash, honest);
  }

  /** The sender speaks: its opening, its next chunk, or the commit after the last one. */
  lemma SpeakAdvances(w: World, sid: nat, p: Phase, k: Task, hash: seq<byte> -> Digest, honest: set<Key>)
    returns (w': World, q: Phase)
    requires OnTrack(w, sid, p, k, hash, honest) && CollisionFree(hash) && Usable(Serving(w, w.sessions[sid]))
    ensures w' == Perform(w, sid, SenderSpeaks, hash, honest) && OnTrack(w', sid, q, k, hash, honest)
    ensures if p.Offers? || p.Streams? then Rank(q, |k.source.bytes|) < Rank(p, |k.source.bytes|) else w' == w && q == p
  {
    q, w' := p, w;
    if p.Offers? {
      q := Asked;
      w' := OfferIsSpoken(w, sid, k, hash, honest);
    } else if p.Streams? && p.offset < |k.source.bytes| {
      var bytes: seq<byte>;
      w', bytes := ChunkIsSpoken(w, sid, p.offset, k, hash, honest);
      q := Sends(p.offset, bytes);
    } else if p.Streams? {
      q := Commits;
      w' := CommitIsSpoken(w, sid, k, hash, honest);
    }
  }

  /** The sender listens: to the receiver's answer, an acknowledgement, or the completion. */
  lemma ListenAdvances(w: World, sid: nat, p: Phase, k: Task, hash: seq<byte> -> Digest, honest: set<Key>)
    returns (w': World, q: Phase)
    requires OnTrack(w, sid, p, k, hash, honest) && CollisionFree(hash) && Usable(Serving(w, w.sessions[sid]))
    ensures w' == Perform(w, sid, SenderListens, hash, honest) && OnTrack(w', sid, q, k, hash, honest)
    ensures if p.Answered? || p.Acked? || p.Informed? then Rank(q, |k.source.bytes|) < Rank(p, |k.source.bytes|) else w' == w && q == p
  {
    q := p;
    if p.Answered? || p.Acked? {
      q := Streams(p.offset);
      w' := Heard(w, sid, w.sessions[sid].toSender[0], hash, honest);
    } else if p.Informed? {
      q := Finished;
      w' := Heard(w, sid, Complete(Describe(k.source, hash)), hash, honest);
    } else {
      w' := w;
    }
  }

  lemma OfferIsTaken(w: World, sid: nat, k: Task, env: Env, hash: seq<byte> -> Digest, honest: set<Key>) returns (w': World)
    requires OnTrack(w, sid, Asked, k, hash, honest) && CollisionFree(hash) && Usable(Serving(w, w.sessions[sid])) && k.resume.None?
    requires CalmMove(Deliver(env), w.disk, k.resume)
    ensures w' == Perform(w, sid, Deliver(env), hash, honest) && OnTrack(w', sid, Answered(0), k, hash, honest)
  {
    var s := w.sessions[sid];
    CountStaysLow(s, w, env, Asked, |k.source.bytes|);
    assert SessionInv(w.disk, s, hash, honest);
    var end := CalmOffer(Serving(w, s), s.grant, s.peer, hash, Describe(k.source, hash), env);
    w' := Handled(w, sid, FirstMessage(k, hash), env, end, Continue, hash, honest);
    assert k.source.bytes[..0] == [];
  }

  /** A stored part is continued at exactly its length. */
  lemma ResumeIsTaken(w: World, sid: nat, k: Task, env: Env, hash: seq<byte> -> Digest, honest: set<Key>)
    returns (w': World, offset: nat)
    requires OnTrack(w, sid, Asked, k, hash, honest) && CollisionFree(hash) && Usable(Serving(w, w.sessions[sid])) && k.resume.Some?
    requires CalmMove(Deliver(env), w.disk, k.resume)
    ensures w' == Perform(w, sid, Deliver(env), hash, honest) && OnTrack(w', sid, Answered(offset), k, hash, honest)
    ensures offset == |Content(w.disk, PartOf(w.disk, k.resume.value).value)|
  {
    var s, content := w.sessions[sid], Content(w.disk, PartOf(w.disk, k.resume.value).value);
    offset := |content|;
    CountStaysLow(s, w, env, Asked, |k.source.bytes|);
    assert SessionInv(w.disk, s, hash, honest);
    StoredPart(w.disk, k.resume.value, k.peer, k.source, hash, honest);
    var end := CalmResume(Serving(w, s), s.grant, s.peer, hash, k.source, k.resume.value, env);
    w' := Handled(w, sid, FirstMessage(k, hash), env, end, Continue, hash, honest);
  }

  lemma StoredPart(d: Disk, id: TransferId, peer: Key, source: Source, hash: seq<byte> -> Digest, honest: set<Key>)
    requires DiskInv(d, hash, honest) && Stored(d, id, peer, source, hash) && peer in honest
    ensures var content := Content(d, PartOf(d, id).value); |content| <= |source.bytes| && source.bytes[..|content|] == content
  {
    var content := Content(d, PartOf(d, id).value);
    assert PrefixOfSource(content, hash, Describe(source, hash).sha256) && hash(source.bytes) == Describe(source, hash).sha256;
  }

  lemma ChunkIsTaken(w: World, sid: nat, p: Phase, k: Task, env: Env, hash: seq<byte> -> Digest, honest: set<Key>)
    returns (w': World)
    requires p.Sends? && OnTrack(w, sid, p, k, hash, honest) && CollisionFree(hash) && Usable(Serving(w, w.sessions[sid]))
    requires CalmMove(Deliver(env), w.disk, k.resume)
    ensures w' == Perform(w, sid, Deliver(env), hash, honest) && OnTrack(w', sid, Acked(p.offset + |p.bytes|), k, hash, honest)
  {
    var s := w.sessions[sid];
    CountStaysLow(s, w, env, p, |k.source.bytes|);
    var t := LiveTransfer(w, sid, p, k, hash, honest);
    var end := CalmChunk(Serving(w, s), s.grant, s.peer, hash, p.bytes, p.offset, env);
    w' := Handled(w, sid, Chunk(p.offset, p.bytes, hash(p.bytes)), env, end, Continue, hash, honest);
  }

  /** The commit publishes the source and answers with its description. */
  lemma CommitIsTaken(w: World, sid: nat, k: Task, env: Env, hash: seq<byte> -> Digest, honest: set<Key>) returns (w': World)
    requires OnTrack(w, sid, Commits, k, hash, honest) && CollisionFree(hash) && Usable(Serving(w, w.sessions[sid]))
    requires CalmMove(Deliver(env), w.disk, k.resume)
    ensures w' == Perform(w, sid, Deliver(env), hash, honest) && OnTrack(w', sid, Informed, k, hash, honest)
    ensures Delivered(w'.disk, k.source)
  {
    var s := w.sessions[sid];
    CountStaysLow(s, w, env, Commits, |k.source.bytes|);
    var t := LiveTransfer(w, sid, Commits, k, hash, honest);
    StoredIsPrefix(w.disk, t, s.peer, k.source, hash, honest);
    assert w.disk.files[t.inode] == k.source.bytes;
    var end := CalmCommit(Serving(w, s), s.grant, s.peer, hash, env);
    w' := Handled(w, sid, Commit, env, end, Done, hash, honest);
    assert SessionInv(w'.disk, w'.sessions[sid], hash, honest);
  }

  /** The receiver takes what is under way and answers it. */
  lemma ReceiveAdvances(w: World, sid: nat, p: Phase, k: Task, env: Env, hash: seq<byte> -> Digest, honest: set<Key>)
    returns (w': World, q: Phase)
    requires OnTrack(w, sid, p, k, hash, honest) && CollisionFree(hash) && Usable(Serving(w, w.sessions[sid]))
    requires CalmMove(Deliver(env), w.disk, k.resume)
    ensures w' == Perform(w, sid, Deliver(env), hash, honest) && OnTrack(w', sid, q, k, hash, honest)
    ensures if p.Asked? || p.Sends? || p.Commits? then Rank(q, |k.source.bytes|) < Rank(p, |k.source.bytes|) else w' == w && q == p
  {
    q, w' := p, w;
    if p.Asked? && k.resume.None? {
      q := Answered(0);
      w' := OfferIsTaken(w, sid, k, env, hash, honest);
    } else if p.Asked? {
      var offset: nat;
      w', offset := ResumeIsTaken(w, sid, k, env, hash, honest);
      q := Answered(offset);
    } else if p.Sends? {
      q := Acked(p.offset + |p.bytes|);
      w' := ChunkIsTaken(w, sid, p, k, env, hash, honest);
    } else if p.Commits? {
      q := Informed;
      w' := CommitIsTaken(w, sid, k, env, hash, honest);
    }
  }

  // -----------------------------------------------------------------------------------------------------------------
  // Whole schedules
  // -----------------------------------------------------------------------------------------------------------------

  /** Whether a move is what the phase waits for. */
  predicate Due(p: Phase, m: Move) {
    match p
    case Offers => m.SenderSpeaks?
    case Streams(_) => m.SenderSpeaks?
    case Answered(_) => m.SenderListens?
    case Acked(_) => m.SenderListens?
    case Informed => m.SenderListens?
    case Finished => false
    case _ => m.Deliver?
  }

  lemma MoveAdvances(w: World, sid: nat, p: Phase, k: Task, move: Move, hash: seq<byte> -> Digest, honest: set<Key>)
    returns (w': World, q: Phase)
    requires OnTrack(w, sid, p, k, hash, honest) && CollisionFree(hash) && Usable(Serving(w, w.sessions[sid]))
    requires CalmMove(move, w.disk, k.resume)
    ensures w' == Perform(w, sid, move, hash, honest) && OnTrack(w', sid, q, k, hash, honest)
    ensures if Due(p, move) then Rank(q, |k.source.bytes|) < Rank(p, |k.source.bytes|) else w' == w && q == p
  {
    match move
    case SenderSpeaks => w', q := SpeakAdvances(w, sid, p, k, hash, honest);
    case SenderListens => w', q := ListenAdvances(w, sid, p, k, hash, honest);
    case Deliver(env) => w', q := ReceiveAdvances(w, sid, p, k, env, hash, honest);
  }

  /** A step of another session, or of the user, that takes neither the file name nor the stored part nor its record. */
  ghost predicate Considerate(w: World, e: Event, k: Task, hash: seq<byte> -> Digest, honest: set<Key>)
    requires WorldInv(w, hash, honest)
  {
    InvIsUsable(w, hash, honest);
    var d := Next(w, e, hash, honest).disk;
    && (Plain(k.source.name) in d.names ==> Plain(k.source.name) in w.disk.names)
    && (Startable(w.disk, k, hash) ==> Startable(d, k, hash))
  }

  predicate Own(sid: nat, e: Event) { e.Act? && e.sid == sid }

  ghost predicate Peaceful(w: World, sid: nat, e: Event, k: Task, hash: seq<byte> -> Digest, honest: set<Key>)
    requires WorldInv(w, hash, honest)
  {
    if Own(sid, e) then CalmMove(e.move, w.disk, k.resume) else Considerate(w, e, k, hash, honest)
  }

  /**
   Nothing fails for this session, and nobody takes what it needs. Other sessions, honest or not, may do all else at any
   time, with any failures; so may the user.
   */
  ghost predicate Undisturbed(w: World, sid: nat, events: seq<Event>, k: Task, hash: seq<byte> -> Digest, honest: set<Key>)
    requires WorldInv(w, hash, honest) && CollisionFree(hash)
    decreases |events|
  {
    InvIsUsable(w, hash, honest);
    events == []
    || (Peaceful(w, sid, events[0], k, hash, honest)
        && (NextKeeps(w, events[0], hash, honest);
            Undisturbed(Next(w, events[0], hash, honest), sid, events[1..], k, hash, honest)))
  }

  /** How many of its own events of a schedule change anything. */
  ghost function Changes(w: World, sid: nat, events: seq<Event>, hash: seq<byte> -> Digest, honest: set<Key>): nat
    requires WorldInv(w, hash, honest) && CollisionFree(hash)
    decreases |events|
  {
    InvIsUsable(w, hash, honest);
    if events == [] then 0
    else
      NextKeeps(w, events[0], hash, honest);
      var w' := Next(w, events[0], hash, honest);
      (if Own(sid, events[0]) && w' != w then 1 else 0) + Changes(w', sid, events[1..], hash, honest)
  }

  lemma OthersLeaveTheSession(w: World, sid: nat, e: Event, hash: seq<byte> -> Digest, honest: set<Key>)
    requires WorldInv(w, hash, honest) && sid in w.sessions && !Own(sid, e)
    requires forall i | i in w.sessions :: Usable(Serving(w, w.sessions[i]))
    ensures var w' := Next(w, e, hash, honest); sid in w'.sessions && w'.sessions[sid] == w.sessions[sid]
  {
  }

  /** Whatever others do, the transfer stays in its phase. */
  lemma OthersKeepTrack(w: World, sid: nat, p: Phase, k: Task, e: Event, hash: seq<byte> -> Digest, honest: set<Key>)
    returns (w': World)
    requires OnTrack(w, sid, p, k, hash, honest) && CollisionFree(hash) && !Own(sid, e) && Considerate(w, e, k, hash, honest)
    requires forall i | i in w.sessions :: Usable(Serving(w, w.sessions[i]))
    ensures w' == Next(w, e, hash, honest) && OnTrack(w', sid, p, k, hash, honest)
  {
    w' := Next(w, e, hash, honest);
    NextKeeps(w, e, hash, honest);
    OthersLeaveTheSession(w, sid, e, hash, honest);
    StaysOnTrack(w, w', sid, p, k, hash, honest);
  }

  lemma StaysOnTrack(w: World, w': World, sid: nat, p: Phase, k: Task, hash: seq<byte> -> Digest, honest: set<Key>)
    requires OnTrack(w, sid, p, k, hash, honest) && WorldInv(w', hash, honest)
    requires sid in w'.sessions && w'.sessions[sid] == w.sessions[sid]
    requires Plain(k.source.name) in w'.disk.names ==> Plain(k.source.name) in w.disk.names
    requires Startable(w.disk, k, hash) ==> Startable(w'.disk, k, hash)
    ensures OnTrack(w', sid, p, k, hash, honest)
  {
  }

  predicate Serves(sid: nat, p: Phase, e: Event) { Own(sid, e) && Due(p, e.move) }

  lemma OneEvent(w: World, sid: nat, p: Phase, k: Task, e: Event, hash: seq<byte> -> Digest, honest: set<Key>)
    returns (w': World, q: Phase)
    requires OnTrack(w, sid, p, k, hash, honest) && CollisionFree(hash) && Peaceful(w, sid, e, k, hash, honest)
    requires forall i | i in w.sessions :: Usable(Serving(w, w.sessions[i]))
    ensures w' == Next(w, e, hash, honest) && OnTrack(w', sid, q, k, hash, honest)
    ensures if Serves(sid, p, e) then Rank(q, |k.source.bytes|) < Rank(p, |k.source.bytes|) else q == p && (Own(sid, e) ==> w' == w)
  {
    if Own(sid, e) {
      w', q := MoveAdvances(w, sid, p, k, e.move, hash, honest);
    } else {
      q := p;
      w' := OthersKeepTrack(w, sid, p, k, e, hash, honest);
    }
  }

  lemma FirstEvent(w: World, sid: nat, p: Phase, k: Task, events: seq<Event>, hash: seq<byte> -> Digest, honest: set<Key>)
    returns (w': World, q: Phase)
    requires OnTrack(w, sid, p, k, hash, honest) && CollisionFree(hash)
    requires events != [] && Undisturbed(w, sid, events, k, hash, honest)
    ensures OnTrack(w', sid, q, k, hash, honest) && Undisturbed(w', sid, events[1..], k, hash, honest)
    ensures Run(w, events, hash, honest) == Run(w', events[1..], hash, honest)
    ensures Changes(w, sid, events, hash, honest) <= Changes(w', sid, events[1..], hash, honest) + if Serves(sid, p, events[0]) then 1 else 0
    ensures if Serves(sid, p, events[0]) then Rank(q, |k.source.bytes|) < Rank(p, |k.source.bytes|) else q == p
  {
    InvIsUsable(w, hash, honest);
    w', q := OneEvent(w, sid, p, k, events[0], hash, honest);
  }

  /** However a peaceful schedule goes on, the transfer stays on track, and each change takes it nearer to its end. */
  lemma {:induction false} RunAdvances(w: World, sid: nat, p: Phase, k: Task, events: seq<Event>, hash: seq<byte> -> Digest,
                                       honest: set<Key>)
    returns (w': World, q: Phase)
    requires OnTrack(w, sid, p, k, hash, honest) && CollisionFree(hash) && Undisturbed(w, sid, events, k, hash, honest)
    ensures w' == Run(w, events, hash, honest) && OnTrack(w', sid, q, k, hash, honest)
    ensures Changes(w, sid, events, hash, honest) + Rank(q, |k.source.bytes|) <= Rank(p, |k.source.bytes|)
    decreases |events|
  {
    w', q := w, p;
    if events != [] {
      var w1, p1 := FirstEvent(w, sid, p, k, events, hash, honest);
      w', q := RunAdvances(w1, sid, p1, k, events[1..], hash, honest);
    }
  }

  /** A session just opened by an honest peer, for a file whose name is legal and free. */
  ghost predicate Opening(w: World, sid: nat, source: Source, resume: Option<TransferId>, hash: seq<byte> -> Digest, honest: set<Key>) {
    && WorldInv(w, hash, honest) && sid in w.sessions && w.sessions[sid].peer in honest && w.sessions[sid].grant.files
    && w.sessions[sid].serving && w.sessions[sid].operations == 0 && w.sessions[sid].sender == Offering(source, resume)
    && ValidName(source.name) && |source.bytes| <= DEFAULT_RECEIVE_LIMIT && Plain(source.name) !in w.disk.names
    && (resume.Some? ==> Stored(w.disk, resume.value, w.sessions[sid].peer, source, hash))
  }

  function TaskOf(w: World, sid: nat, source: Source, resume: Option<TransferId>): Task
    requires sid in w.sessions
  {
    Task(source, resume, w.sessions[sid].peer)
  }

  lemma OpeningIsOnTrack(w: World, sid: nat, source: Source, resume: Option<TransferId>, hash: seq<byte> -> Digest, honest: set<Key>)
    returns (k: Task)
    requires Opening(w, sid, source, resume, hash, honest)
    ensures k == TaskOf(w, sid, source, resume) && OnTrack(w, sid, Offers, k, hash, honest)
  {
    k := Task(source, resume, w.sessions[sid].peer);
    assert SessionInv(w.disk, w.sessions[sid], hash, honest);
  }

  /** Nothing under way, and nothing the sender would say. */
  predicate AtRest(s: Session, hash: seq<byte> -> Digest) { Quiet(s) && Speak(s.sender, hash).None? }

  lemma RestIsTheEnd(w: World, sid: nat, p: Phase, k: Task, hash: seq<byte> -> Digest, honest: set<Key>)
    requires OnTrack(w, sid, p, k, hash, honest) && (AtRest(w.sessions[sid], hash) || p.Finished?)
    ensures w.sessions[sid].sender == Succeeded(k.source) && Delivered(w.disk, k.source)
  {
    assert SessionInv(w.disk, w.sessions[sid], hash, honest);
  }

  /**
   In any sound world, among any other sessions at work: a new session of an honest peer that is left in peace never goes
   wrong, under any schedule. It changes the world a bounded number of times, and where it comes to rest the file is
   delivered and the sender knows it, whether it started afresh or resumed any stored part of the same file.
   */
  lemma TransferLeftAloneArrives(w: World, sid: nat, source: Source, resume: Option<TransferId>, events: seq<Event>,
                                 hash: seq<byte> -> Digest, honest: set<Key>)
    returns (w': World)
    requires Opening(w, sid, source, resume, hash, honest) && CollisionFree(hash)
    requires Undisturbed(w, sid, events, TaskOf(w, sid, source, resume), hash, honest)
    ensures w' == Run(w, events, hash, honest) && sid in w'.sessions && !w'.sessions[sid].sender.GaveUp?
    ensures Changes(w, sid, events, hash, honest) <= 4 * |source.bytes| + 8
    ensures AtRest(w'.sessions[sid], hash) ==> w'.sessions[sid].sender == Succeeded(source) && Delivered(w'.disk, source)
  {
    var k := OpeningIsOnTrack(w, sid, source, resume, hash, honest);
    var q: Phase;
    w', q := RunAdvances(w, sid, Offers, k, events, hash, honest);
    if AtRest(w'.sessions[sid], hash) { RestIsTheEnd(w', sid, q, k, hash, honest); }
  }

  // -----------------------------------------------------------------------------------------------------------------
  // Fair schedules
  // -----------------------------------------------------------------------------------------------------------------

  /** Some events among which each kind of the session's moves occurs, in any order and any number. */
  ghost predicate Round(sid: nat, events: seq<Event>) {
    forall p: Phase | !p.Finished? :: Served(sid, p, events)
  }

  predicate Served(sid: nat, p: Phase, events: seq<Event>) { exists e | e in events :: Serves(sid, p, e) }

  lemma {:induction false} ServingAdvances(w: World, sid: nat, p: Phase, k: Task, events: seq<Event>, hash: seq<byte> -> Digest,
                                           honest: set<Key>)
    returns (w': World, q: Phase)
    requires OnTrack(w, sid, p, k, hash, honest) && CollisionFree(hash) && Undisturbed(w, sid, events, k, hash, honest)
    ensures w' == Run(w, events, hash, honest) && OnTrack(w', sid, q, k, hash, honest)
    ensures Rank(q, |k.source.bytes|) <= Rank(p, |k.source.bytes|)
    ensures Served(sid, p, events) ==> Rank(q, |k.source.bytes|) < Rank(p, |k.source.bytes|)
    decreases |events|
  {
    w', q := w, p;
    if events != [] {
      var w1, p1 := FirstEvent(w, sid, p, k, events, hash, honest);
      w', q := ServingAdvances(w1, sid, p1, k, events[1..], hash, honest);
      assert Served(sid, p, events) && !Serves(sid, p, events[0]) ==> Served(sid, p, events[1..]);
    }
  }

  /** A schedule may be taken in two parts. */
  lemma {:induction false} RunInSteps(w: World, sid: nat, k: Task, a: seq<Event>, b: seq<Event>, hash: seq<byte> -> Digest, honest: set<Key>)
    requires WorldInv(w, hash, honest) && CollisionFree(hash)
    ensures Run(w, a + b, hash, honest) == Run(Run(w, a, hash, honest), b, hash, honest)
    ensures Undisturbed(w, sid, a + b, k, hash, honest) <==>
              Undisturbed(w, sid, a, k, hash, honest) && Undisturbed(Run(w, a, hash, honest), sid, b, k, hash, honest)
    decreases |a|
  {
    if a == [] {
      assert a + b == b;
    } else {
      InvIsUsable(w, hash, honest);
      NextKeeps(w, a[0], hash, honest);
      assert (a + b)[0] == a[0] && (a + b)[1..] == a[1..] + b;
      RunInSteps(Next(w, a[0], hash, honest), sid, k, a[1..], b, hash, honest);
    }
  }

  function Joined(rounds: seq<seq<Event>>): seq<Event> { if rounds == [] then [] else rounds[0] + Joined(rounds[1..]) }

  lemma {:induction false} RoundsAdvance(w: World, sid: nat, p: Phase, k: Task, rounds: seq<seq<Event>>, hash: seq<byte> -> Digest,
                                         honest: set<Key>)
    returns (w': World, q: Phase)
    requires OnTrack(w, sid, p, k, hash, honest) && CollisionFree(hash)
    requires (forall r | r in rounds :: Round(sid, r)) && Undisturbed(w, sid, Joined(rounds), k, hash, honest)
    ensures w' == Run(w, Joined(rounds), hash, honest) && OnTrack(w', sid, q, k, hash, honest)
    ensures q.Finished? || Rank(q, |k.source.bytes|) + |rounds| <= Rank(p, |k.source.bytes|)
    decreases |rounds|
  {
    w', q := w, p;
    if rounds != [] {
      assert rounds[0] in rounds;
      RunInSteps(w, sid, k, rounds[0], Joined(rounds[1..]), hash, honest);
      var w1, p1 := ServingAdvances(w, sid, p, k, rounds[0], hash, honest);
      w', q := RoundsAdvance(w1, sid, p1, k, rounds[1..], hash, honest);
    }
  }

  /** Any schedule that goes on giving every part of the session its turn delivers the file, whatever goes on beside it. */
  lemma FairSchedulesDeliver(w: World, sid: nat, source: Source, resume: Option<TransferId>, rounds: seq<seq<Event>>,
                             hash: seq<byte> -> Digest, honest: set<Key>)
    returns (w': World)
    requires Opening(w, sid, source, resume, hash, honest) && CollisionFree(hash) && |rounds| > 4 * |source.bytes| + 8
    requires (forall r | r in rounds :: Round(sid, r))
    requires Undisturbed(w, sid, Joined(rounds), TaskOf(w, sid, source, resume), hash, honest)
    ensures w' == Run(w, Joined(rounds), hash, honest) && sid in w'.sessions
    ensures w'.sessions[sid].sender == Succeeded(source) && Delivered(w'.disk, source)
  {
    var k := OpeningIsOnTrack(w, sid, source, resume, hash, honest);
    var q: Phase;
    w', q := RoundsAdvance(w, sid, Offers, k, rounds, hash, honest);
    RestIsTheEnd(w', sid, q, k, hash, honest);
  }

  /** Speaking, delivering and listening once each is such a round. */
  lemma TurnsAreARound(sid: nat, env: Env)
    ensures Round(sid, [Act(sid, SenderSpeaks), Act(sid, Deliver(env)), Act(sid, SenderListens)])
  {
    var events := [Act(sid, SenderSpeaks), Act(sid, Deliver(env)), Act(sid, SenderListens)];
    assert events[0] in events && events[1] in events && events[2] in events;
    forall p: Phase | !p.Finished? ensures Served(sid, p, events) {
      assert Serves(sid, p, events[0]) || Serves(sid, p, events[1]) || Serves(sid, p, events[2]);
    }
  }

  // -----------------------------------------------------------------------------------------------------------------
  // What others may do
  // -----------------------------------------------------------------------------------------------------------------

  /** A stored part that nobody writes, and that it stays so with its record. */
  ghost predicate Idle(d: Disk, id: TransferId) { PartOf(d, id).Some? && PartOf(d, id).value !in d.locked && RecordOf(d, id).Some? }

  ghost predicate Spares(d: Disk, d': Disk, id: TransferId) {
    Idle(d, id) ==> Idle(d', id) && PartOf(d', id) == PartOf(d, id) && RecordOf(d', id) == RecordOf(d, id)
  }

  lemma ResumeSpares(d: Disk, owner: Key, id: TransferId, io: IoPlan, stored: TransferId)
    requires Structured(d) && PartsAreSeparate(d) && id != stored
    ensures Spares(d, ResumeTransfer(d, true, owner, id, io).0, stored)
  {
    assert PartOf(d, stored).Some? ==> PartOf(d, stored) != PartOf(d, id);
  }

  lemma OfferSpares(d: Disk, owner: Key, manifest: Manifest, id: TransferId, io: IoPlan, stored: TransferId)
    requires Structured(d)
    ensures Spares(d, BeginTransfer(d, true, owner, manifest, id, io).0, stored)
  {
  }

  lemma ChunkSpares(d: Disk, t: Transfer, peer: Key, hash: seq<byte> -> Digest, m: Message, io: IoPlan, stored: TransferId)
    requires Structured(d) && PartsAreSeparate(d) && Owns(d, t, peer) && m.Chunk?
    ensures Spares(d, PutChunk(d, t, hash, true, m.offset, m.bytes, m.checksum, io).0, stored)
  {
  }

  lemma FinishSpares(d: Disk, t: Transfer, peer: Key, hash: seq<byte> -> Digest, io: IoPlan, stored: TransferId)
    requires Structured(d) && PartsAreSeparate(d) && Owns(d, t, peer)
    ensures Spares(d, FinishTransfer(d, t, hash, true, io).0, stored)
  {
  }

  lemma CancelSpares(d: Disk, t: Transfer, peer: Key, io: IoPlan, stored: TransferId)
    requires Structured(d) && PartsAreSeparate(d) && Owns(d, t, peer)
    ensures Spares(d, CancelTransfer(d, t, true, io).0, stored)
  {
  }

  lemma ReadingSpares(s: State, g: Rights, peer: Key, hash: seq<byte> -> Digest, m: Message, env: Env, stored: TransferId)
    requires Usable(s) && PartsAreSeparate(s.disk) && s.transfer.None? && m != Resume(stored)
    ensures Spares(s.disk, Handle(s, g, peer, hash, m, env).0.disk, stored)
  {
    match m
    case FileOffer(manifest) => OfferSpares(s.disk, peer, manifest, env.id, env.io, stored);
    case Resume(id) => ResumeSpares(s.disk, peer, id, env.io, stored);
    case _ =>
  }

  lemma WritingSpares(s: State, g: Rights, peer: Key, hash: seq<byte> -> Digest, m: Message, env: Env, stored: TransferId)
    requires Usable(s) && PartsAreSeparate(s.disk) && s.transfer.Some? && Owns(s.disk, s.transfer.value, peer)
    ensures Spares(s.disk, Handle(s, g, peer, hash, m, env).0.disk, stored)
  {
    match m
    case Chunk(_, _, _) => ChunkSpares(s.disk, s.transfer.value, peer, hash, m, env.io, stored);
    case Commit => FinishSpares(s.disk, s.transfer.value, peer, hash, env.io, stored);
    case Cancel => CancelSpares(s.disk, s.transfer.value, peer, env.io, stored);
    case _ =>
  }

  lemma HandlingSpares(s: State, g: Rights, peer: Key, hash: seq<byte> -> Digest, m: Message, env: Env, stored: TransferId)
    requires Usable(s) && PartsAreSeparate(s.disk) && (s.transfer.Some? ==> Owns(s.disk, s.transfer.value, peer)) && m != Resume(stored)
    ensures Spares(s.disk, Handle(s, g, peer, hash, m, env).0.disk, stored)
  {
    if s.transfer.None? {
      ReadingSpares(s, g, peer, hash, m, env, stored);
    } else {
      WritingSpares(s, g, peer, hash, m, env, stored);
    }
  }

  lemma ReceivingSpares(w: World, j: nat, env: Env, hash: seq<byte> -> Digest, honest: set<Key>, stored: TransferId)
    requires WorldInv(w, hash, honest) && j in w.sessions && w.sessions[j].toReceiver != [] && Usable(Serving(w, w.sessions[j]))
    requires w.sessions[j].toReceiver[0] != Resume(stored)
    ensures Spares(w.disk, Receive(w, j, env, hash).disk, stored)
  {
    var s := w.sessions[j];
    assert SessionInv(w.disk, s, hash, honest);
    var counted := Counted(Serving(w, s), env);
    if counted.operations <= MAX_OPERATIONS { HandlingSpares(counted, s.grant, s.peer, hash, s.toReceiver[0], env, stored); }
  }

  /** The only steps of others that may be in the way: committing a file of that name, resuming that part, creating that name. */
  predicate InTheWay(w: World, e: Event, k: Task) {
    match e
    case Open(_, _, _, _) => false
    case UserCreates(name, _) => name == k.source.name
    case Act(j, move) =>
      j in w.sessions && move.Deliver? && w.sessions[j].toReceiver != [] &&
      match w.sessions[j].toReceiver[0]
      case Commit => w.sessions[j].transfer.Some? && w.sessions[j].transfer.value.metadata.manifest.name == k.source.name
      case Resume(id) => k.resume == Some(id)
      case _ => false
  }

  lemma DeliveryIsConsiderate(w: World, j: nat, env: Env, k: Task, hash: seq<byte> -> Digest, honest: set<Key>)
    requires WorldInv(w, hash, honest) && CollisionFree(hash) && !InTheWay(w, Act(j, Deliver(env)), k)
    requires j in w.sessions && w.sessions[j].serving && w.sessions[j].toReceiver != [] && Usable(Serving(w, w.sessions[j]))
    ensures var d := Receive(w, j, env, hash).disk;
            && (Plain(k.source.name) in d.names ==> Plain(k.source.name) in w.disk.names)
            && (Startable(w.disk, k, hash) ==> Startable(d, k, hash))
  {
    var d := Receive(w, j, env, hash).disk;
    if k.resume.Some? { ReceivingSpares(w, j, env, hash, honest, k.resume.value); }
    if Plain(k.source.name) !in w.disk.names && Plain(k.source.name) in d.names {
      PublicationIsVerified(w, j, env, hash, honest, k.source.name);
      assert false;
    }
  }

  /** All other steps of all other sessions are considerate, honest or not, and whatever fails in them. */
  lemma OthersAreConsiderate(w: World, e: Event, k: Task, hash: seq<byte> -> Digest, honest: set<Key>)
    requires WorldInv(w, hash, honest) && CollisionFree(hash) && !InTheWay(w, e, k)
    ensures Considerate(w, e, k, hash, honest)
  {
    InvIsUsable(w, hash, honest);
    if e.Act? && e.sid in w.sessions && e.move.Deliver? && w.sessions[e.sid].serving && w.sessions[e.sid].toReceiver != [] {
      DeliveryIsConsiderate(w, e.sid, e.move.env, k, hash, honest);
    }
  }

  /** Every honest peer that opens a session with file permission, for a legal file under a free name, is in that position. */
  lemma NewSessionIsOpening(w: World, sid: nat, peer: Key, grant: Rights, source: Source, resume: Option<TransferId>,
                            hash: seq<byte> -> Digest, honest: set<Key>)
    requires WorldInv(w, hash, honest) && CollisionFree(hash) && sid !in w.sessions && peer in honest && grant.files
    requires ValidName(source.name) && |source.bytes| <= DEFAULT_RECEIVE_LIMIT && Plain(source.name) !in w.disk.names
    requires resume.Some? ==> Stored(w.disk, resume.value, peer, source, hash)
    ensures var w' := Run(w, [Open(sid, peer, grant, Offering(source, resume))], hash, honest);
            Opening(w', sid, source, resume, hash, honest) && w'.disk == w.disk && w'.sessions[sid].peer == peer
  {
    InvIsUsable(w, hash, honest);
    var e := Open(sid, peer, grant, Offering(source, resume));
    NextKeeps(w, e, hash, honest);
    assert Run(Next(w, e, hash, honest), [], hash, honest) == Next(w, e, hash, honest);
  }
}
