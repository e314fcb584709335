/**
 Any number of sessions, one after another or at once, moving files into one directory.

 Honest peers run the sending loop of `send_file`; all other peers send whatever they like. Messages travel in order;
 a connection may be cut between any two steps, and the last chunk of a session may be torn in the middle of its write.
 */
module Resumption {
  import opened Wrappers
  import opened Names
  import opened Files
  import opened P = Permissions
  import opened Endpoint
  import opened DirectoryInvariant

  datatype Source = Source(name: string, bytes: seq<byte>)

  function Describe(source: Source, hash: seq<byte> -> Digest): Manifest {
    Manifest(source.name, |source.bytes|, hash(source.bytes))
  }

  datatype Sender =
    | Hostile
    | Offering(source: Source, resume: Option<TransferId>)
    | AwaitReady(source: Source)
    | Sending(source: Source, offset: nat)
    | AwaitProgress(source: Source, offset: nat)
    | AwaitComplete(source: Source)
    | Succeeded(source: Source)
    | GaveUp

  function ChunkAt(source: Source, offset: nat): seq<byte>
    requires offset <= |source.bytes|
  {
    if |source.bytes| - offset < CHUNK_SIZE then source.bytes[offset..] else source.bytes[offset..offset + CHUNK_SIZE]
  }

  /** What the sender does on its own: the opening offer, the next chunk, the commit. */
  function Speak(sender: Sender, hash: seq<byte> -> Digest): Option<(Sender, Message)> {
    match sender
    case Offering(source, resume) =>
      if !ValidName(source.name) || |source.bytes| > MAX_FILE_SIZE then None
      else Some((AwaitReady(source), if resume.Some? then Resume(resume.value) else FileOffer(Describe(source, hash))))
    case Sending(source, offset) =>
      if offset < |source.bytes| then
        var bytes := ChunkAt(source, offset);
        Some((AwaitProgress(source, offset + |bytes|), Chunk(offset, bytes, hash(bytes))))
      else Some((AwaitComplete(source), Commit))
    case _ => None
  }

  /** What the sender does with a reply; anything unexpected ends its session. */
  function Listen(sender: Sender, m: Message, hash: seq<byte> -> Digest): Sender {
    match sender
    case AwaitReady(source) =>
      if m.Ready? && m.manifest == Describe(source, hash) && m.offset <= |source.bytes|
         && hash(source.bytes[..m.offset]) == m.prefixHash
      then Sending(source, m.offset) else GaveUp
    case AwaitProgress(source, offset) => if m == Progress(offset) then Sending(source, offset) else GaveUp
    case AwaitComplete(source) => if m == Complete(Describe(source, hash)) then Succeeded(source) else GaveUp
    case _ => GaveUp
  }

  datatype Session = Session(peer: Key, grant: Rights, toReceiver: seq<Message>, toSender: seq<Message>,
                             transfer: Option<Transfer>, operations: nat, serving: bool, sender: Sender)

  datatype World = World(disk: Disk, sessions: map<nat, Session>)

  /** A step within one session. */
  datatype Move = SenderSpeaks | SenderListens | Inject(message: Message) | Deliver(env: Env) | Cut

  datatype Event =
    | Open(sid: nat, peer: Key, grant: Rights, sender: Sender)
    | Act(sid: nat, move: Move)
    | UserCreates(name: string, bytes: seq<byte>)

  function Serving(w: World, s: Session): State { State(w.disk, s.transfer, s.operations, [], []) }

  /** The receiver handles the oldest message of a session. */
  function Receive(w: World, sid: nat, env: Env, hash: seq<byte> -> Digest): World
    requires sid in w.sessions && w.sessions[sid].toReceiver != [] && Usable(Serving(w, w.sessions[sid]))
  {
    var s := w.sessions[sid];
    var (end, flow) := Iterate(Serving(w, s), s.grant, s.peer, hash, s.toReceiver[0], env);
    World(end.disk, w.sessions[sid := s.(toReceiver := s.toReceiver[1..], toSender := s.toSender + end.sent,
                                         transfer := end.transfer, operations := end.operations, serving := flow.Continue?)])
  }

  function Disconnect(w: World, sid: nat): World
    requires sid in w.sessions
  {
    var s := w.sessions[sid];
    World(if s.transfer.Some? then Unlock(w.disk, s.transfer.value.inode) else w.disk, w.sessions - {sid})
  }

  function Create(w: World, name: string, bytes: seq<byte>): World {
    World(Disk(w.disk.names[Plain(name) := w.disk.next], w.disk.files[w.disk.next := bytes], w.disk.records, w.disk.locked,
               w.disk.next + 1), w.sessions)
  }

  predicate MayOpen(peer: Key, sender: Sender, honest: set<Key>) {
    if peer in honest then sender.Offering? else sender.Hostile?
  }

  function Update(w: World, sid: nat, s: Session): World { w.(sessions := w.sessions[sid := s]) }

  /** One move of a session; a move that is not possible changes nothing. */
  function Perform(w: World, sid: nat, move: Move, hash: seq<byte> -> Digest, honest: set<Key>): World
    requires sid in w.sessions && Usable(Serving(w, w.sessions[sid]))
  {
    var s := w.sessions[sid];
    match move
    case SenderSpeaks =>
      var spoken := Speak(s.sender, hash);
      if spoken.None? then w
      else Update(w, sid, s.(sender := spoken.value.0, toReceiver := s.toReceiver + [spoken.value.1]))
    case SenderListens =>
      if s.toSender == [] || s.sender.Hostile? then w
      else Update(w, sid, s.(sender := Listen(s.sender, s.toSender[0], hash), toSender := s.toSender[1..]))
    case Inject(m) => if s.peer in honest then w else Update(w, sid, s.(toReceiver := s.toReceiver + [m]))
    case Deliver(env) => if !s.serving || s.toReceiver == [] then w else Receive(w, sid, env, hash)
    case Cut => Disconnect(w, sid)
  }

  /** One atomic step of the world; an event that is not possible changes nothing. */
  ghost function Next(w: World, e: Event, hash: seq<byte> -> Digest, honest: set<Key>): World
    requires forall i | i in w.sessions :: Usable(Serving(w, w.sessions[i]))
  {
    match e
    case Open(sid, peer, grant, sender) =>
      if sid in w.sessions || !MayOpen(peer, sender, honest) then w
      else Update(w, sid, Session(peer, grant, [], [], None, 0, true, sender))
    case Act(sid, move) => if sid in w.sessions then Perform(w, sid, move, hash, honest) else w
    case UserCreates(name, bytes) => if Exists(w.disk, Plain(name)) || !Ordinary(name) then w else Create(w, name, bytes)
  }

  /** The receiver's directory holds the whole source under its name. */
  predicate Delivered(d: Disk, source: Source) {
    Plain(source.name) in d.names && Content(d, d.names[Plain(source.name)]) == source.bytes
  }

  predicate Holds(s: Session, source: Source, offset: nat, hash: seq<byte> -> Digest) {
    s.serving && s.transfer.Some? && s.transfer.value.metadata.manifest == Describe(source, hash)
    && s.transfer.value.offset == offset <= |source.bytes|
  }

  predicate Quiet(s: Session) { s.toReceiver == [] && s.toSender == [] }

  /** A hash that vouches for the first `offset` bytes of whatever the manifest describes. */
  ghost predicate VouchesForPrefix(digest: Digest, offset: nat, sha256: Digest, hash: seq<byte> -> Digest) {
    forall source: seq<byte> {:trigger hash(source)} ::
      hash(source) == sha256 ==> offset <= |source| && digest == hash(source[..offset])
  }

  ghost predicate AwaitingReady(s: Session, source: Source, hash: seq<byte> -> Digest) {
    || (Quiet(s) && !s.serving)
    || (s.toSender == [] && s.transfer.None?
        && (s.toReceiver == [FileOffer(Describe(source, hash))] || (|s.toReceiver| == 1 && s.toReceiver[0].Resume?)))
    || (s.toReceiver == [] && |s.toSender| == 1 && s.toSender[0].Ready? && s.serving && s.transfer.Some?
        && s.toSender[0].manifest == s.transfer.value.metadata.manifest && s.toSender[0].offset == s.transfer.value.offset
        && VouchesForPrefix(s.toSender[0].prefixHash, s.toSender[0].offset, s.toSender[0].manifest.sha256, hash))
  }

  ghost predicate AwaitingProgress(s: Session, source: Source, offset: nat, hash: seq<byte> -> Digest) {
    || (Quiet(s) && !s.serving)
    || (s.toSender == [] && |s.toReceiver| == 1 && s.toReceiver[0].Chunk? && Holds(s, source, s.toReceiver[0].offset, hash)
        && s.toReceiver[0].offset <= offset <= |source.bytes| && s.toReceiver[0].bytes == source.bytes[s.toReceiver[0].offset..offset])
    || (s.toReceiver == [] && s.toSender == [Progress(offset)] && Holds(s, source, offset, hash))
  }

  ghost predicate AwaitingCompletion(d: Disk, s: Session, source: Source, hash: seq<byte> -> Digest) {
    || (Quiet(s) && !s.serving)
    || (s.toSender == [] && s.toReceiver == [Commit] && Holds(s, source, |source.bytes|, hash))
    || (s.toReceiver == [] && s.toSender == [Complete(Describe(source, hash))] && Delivered(d, source))
  }

  /** An honest session is in lockstep: at most one message is under way, and it fits both ends. */
  ghost predicate InStep(d: Disk, s: Session, hash: seq<byte> -> Digest) {
    match s.sender
    case Hostile => false
    case Offering(_, _) => Quiet(s) && s.transfer.None?
    case AwaitReady(source) => AwaitingReady(s, source, hash)
    case Sending(source, offset) => Quiet(s) && Holds(s, source, offset, hash)
    case AwaitProgress(source, offset) => AwaitingProgress(s, source, offset, hash)
    case AwaitComplete(source) => AwaitingCompletion(d, s, source, hash)
    case Succeeded(source) => s.toReceiver == [] && Delivered(d, source)
    case GaveUp => s.toReceiver == []
  }

  ghost predicate NamesItsSource(s: Sender) {
    match s
    case Hostile => true
    case Offering(_, _) => true
    case GaveUp => true
    case _ => ValidName(s.source.name)
  }

  ghost predicate SessionInv(d: Disk, s: Session, hash: seq<byte> -> Digest, honest: set<Key>) {
    && (s.transfer.Some? ==> s.serving && Owns(d, s.transfer.value, s.peer))
    && (s.peer in honest ==> InStep(d, s, hash) && NamesItsSource(s.sender))
    && (s.peer !in honest ==> s.sender.Hostile?)
  }

  /** No two sessions write the same part file. */
  ghost predicate Exclusive(w: World) {
    forall i, j | i in w.sessions && j in w.sessions && i != j && w.sessions[i].transfer.Some? && w.sessions[j].transfer.Some? ::
      w.sessions[i].transfer.value.inode != w.sessions[j].transfer.value.inode
  }

  ghost predicate WorldInv(w: World, hash: seq<byte> -> Digest, honest: set<Key>) {
    && DiskInv(w.disk, hash, honest)
    && (forall i | i in w.sessions :: SessionInv(w.disk, w.sessions[i], hash, honest))
    && Exclusive(w)
  }

  lemma InvIsUsable(w: World, hash: seq<byte> -> Digest, honest: set<Key>)
    requires WorldInv(w, hash, honest)
    ensures forall i | i in w.sessions :: Usable(Serving(w, w.sessions[i]))
  {
    forall i | i in w.sessions ensures Usable(Serving(w, w.sessions[i])) {
      assert SessionInv(w.disk, w.sessions[i], hash, honest);
    }
  }

  /** A session not touching the changed file keeps its invariant. */
  lemma BystanderKeeps(d: Disk, d': Disk, s: Session, inode: nat, hash: seq<byte> -> Digest, honest: set<Key>)
    requires SessionInv(d, s, hash, honest) && Respects(d, d', inode)
    requires s.transfer.Some? ==> s.transfer.value.inode != inode
    ensures SessionInv(d', s, hash, honest)
  {
    if s.peer in honest {
      match s.sender {
        case AwaitComplete(source) => DeliveredStays(d, d', source);
        case Succeeded(source) => DeliveredStays(d, d', source);
        case _ =>
      }
    }
  }

  lemma DeliveredStays(d: Disk, d': Disk, source: Source)
    requires KeepsOrdinaryFiles(d, d') && ValidName(source.name)
    ensures Delivered(d, source) ==> Delivered(d', source)
  {
  }

  /** The file one received message may touch: the session's own, or one nobody holds. */
  ghost predicate Free(d: Disk, t: Option<Transfer>, inode: nat) {
    if t.Some? then inode == t.value.inode else inode !in d.locked
  }

  /** What handling one message does to the directory, before the loop decides whether to go on. */
  ghost predicate Handled(d: Disk, t: Option<Transfer>, r: (State, Flow), inode: nat, peer: Key, hash: seq<byte> -> Digest,
                          honest: set<Key>)
  {
    && DiskInv(r.0.disk, hash, honest) && Respects(d, r.0.disk, inode) && Free(d, t, inode)
    && (r.0.transfer.Some? ==> r.0.transfer.value.inode == inode)
    && (r.0.transfer.Some? && r.1.Continue? ==> Owns(r.0.disk, r.0.transfer.value, peer))
  }

  ghost predicate ReceiverReady(s: State, peer: Key, hash: seq<byte> -> Digest, honest: set<Key>) {
    DiskInv(s.disk, hash, honest) && Usable(s) && (s.transfer.Some? ==> Owns(s.disk, s.transfer.value, peer))
  }

  /** A chunk an honest peer can send to this session continues its source. */
  ghost predicate Honourable(s: State, peer: Key, hash: seq<byte> -> Digest, honest: set<Key>, m: Message) {
    peer in honest && m.Chunk? && s.transfer.Some? && m.offset == s.transfer.value.offset ==>
      ContinuesSource(s.disk, s.transfer.value, hash, m.bytes)
  }

  lemma OfferIsHandled(s: State, g: Rights, peer: Key, hash: seq<byte> -> Digest, honest: set<Key>, manifest: Manifest, env: Env)
    requires ReceiverReady(s, peer, hash, honest) && s.transfer.None?
    ensures Handled(s.disk, None, HandleOffer(s, g, peer, hash, manifest, env), s.disk.next, peer, hash, honest)
  {
    BeginKeeps(s.disk, hash, honest, true, peer, manifest, env.id, env.io);
    BeginOwns(s.disk, true, peer, manifest, env.id, env.io);
  }

  lemma ResumeIsHandled(s: State, g: Rights, peer: Key, hash: seq<byte> -> Digest, honest: set<Key>, id: TransferId, env: Env)
    returns (inode: nat)
    requires ReceiverReady(s, peer, hash, honest) && s.transfer.None?
    ensures Handled(s.disk, None, HandleResume(s, g, peer, hash, id, env), inode, peer, hash, honest)
  {
    ResumeKeeps(s.disk, hash, honest, true, peer, id, env.io);
    var r := ResumeTransfer(s.disk, true, peer, id, env.io).1;
    inode := if r.Ok? then r.value.inode else s.disk.next;
  }

  lemma ChunkIsHandled(s: State, g: Rights, peer: Key, hash: seq<byte> -> Digest, honest: set<Key>, m: Message, env: Env)
    requires ReceiverReady(s, peer, hash, honest) && s.transfer.Some? && m.Chunk? && Honourable(s, peer, hash, honest, m)
    ensures Handled(s.disk, s.transfer, HandleChunk(s, g, hash, m.offset, m.bytes, m.checksum, env), s.transfer.value.inode,
                    peer, hash, honest)
  {
    ChunkKeeps(s.disk, hash, honest, s.transfer.value, peer, true, m.offset, m.bytes, m.checksum, env.io);
  }

  lemma CommitIsHandled(s: State, g: Rights, peer: Key, hash: seq<byte> -> Digest, honest: set<Key>, env: Env)
    requires ReceiverReady(s, peer, hash, honest) && s.transfer.Some?
    ensures Handled(s.disk, s.transfer, HandleCommit(s, g, hash, env), s.transfer.value.inode, peer, hash, honest)
  {
    FinishKeeps(s.disk, hash, honest, s.transfer.value, peer, true, env.io);
  }

  lemma CancelIsHandled(s: State, g: Rights, peer: Key, hash: seq<byte> -> Digest, honest: set<Key>, env: Env)
    requires ReceiverReady(s, peer, hash, honest) && s.transfer.Some?
    ensures Handled(s.disk, s.transfer, HandleCancel(s, g, env), s.transfer.value.inode, peer, hash, honest)
  {
    CancelKeeps(s.disk, hash, honest, s.transfer.value, peer, true, env.io);
  }

  lemma PauseIsHandled(s: State, g: Rights, peer: Key, hash: seq<byte> -> Digest, honest: set<Key>, env: Env)
    requires ReceiverReady(s, peer, hash, honest) && s.transfer.Some?
    ensures Handled(s.disk, s.transfer, HandlePause(s, g, env), s.transfer.value.inode, peer, hash, honest)
  {
    UnlockingKeeps(s.disk, hash, honest, s.transfer.value.inode);
  }

  lemma MessageIsHandled(s: State, g: Rights, peer: Key, hash: seq<byte> -> Digest, honest: set<Key>, m: Message, env: Env)
    returns (inode: nat)
    requires ReceiverReady(s, peer, hash, honest) && Honourable(s, peer, hash, honest, m)
    ensures Handled(s.disk, s.transfer, Handle(s, g, peer, hash, m, env), inode, peer, hash, honest)
  {
    inode := if s.transfer.Some? then s.transfer.value.inode else s.disk.next;
    if s.transfer.None? {
      match m {
        case FileOffer(manifest) => OfferIsHandled(s, g, peer, hash, honest, manifest, env);
        case Resume(id) => inode := ResumeIsHandled(s, g, peer, hash, honest, id, env);
        case _ =>
      }
    } else {
      OpenTransferIsHandled(s, g, peer, hash, honest, m, env);
    }
  }

  lemma OpenTransferIsHandled(s: State, g: Rights, peer: Key, hash: seq<byte> -> Digest, honest: set<Key>, m: Message, env: Env)
    requires ReceiverReady(s, peer, hash, honest) && Honourable(s, peer, hash, honest, m) && s.transfer.Some?
    ensures Handled(s.disk, s.transfer, Handle(s, g, peer, hash, m, env), s.transfer.value.inode, peer, hash, honest)
  {
    match m {
      case Chunk(_, _, _) => ChunkIsHandled(s, g, peer, hash, honest, m, env);
      case Commit => CommitIsHandled(s, g, peer, hash, honest, env);
      case Cancel => CancelIsHandled(s, g, peer, hash, honest, env);
      case Pause => PauseIsHandled(s, g, peer, hash, honest, env);
      case _ =>
    }
  }

  lemma SettlingIsHandled(d: Disk, t: Option<Transfer>, r: (State, Flow), inode: nat, peer: Key, hash: seq<byte> -> Digest,
                          honest: set<Key>)
    requires Handled(d, t, r, inode, peer, hash, honest)
    ensures Handled(d, t, Settle(r), inode, peer, hash, honest)
    ensures Settle(r).0.transfer.Some? ==> Settle(r).1.Continue?
  {
    if !r.1.Continue? && r.0.transfer.Some? {
      UnlockingKeeps(r.0.disk, hash, honest, inode);
      RespectIsTransitive(d, r.0.disk, Unlock(r.0.disk, inode), inode);
    }
  }

  lemma IterationIsHandled(s: State, g: Rights, peer: Key, hash: seq<byte> -> Digest, honest: set<Key>, m: Message, env: Env)
    returns (inode: nat)
    requires ReceiverReady(s, peer, hash, honest) && Honourable(s, peer, hash, honest, m)
    ensures Handled(s.disk, s.transfer, Iterate(s, g, peer, hash, m, env), inode, peer, hash, honest)
    ensures var (end, flow) := Iterate(s, g, peer, hash, m, env); end.transfer.Some? ==> flow.Continue?
  {
    var counted := Counted(s, env);
    if counted.operations > MAX_OPERATIONS {
      inode := if s.transfer.Some? then s.transfer.value.inode else s.disk.next;
      SettlingIsHandled(s.disk, s.transfer, (counted, Failed(InvalidOperation)), inode, peer, hash, honest);
    } else {
      inode := MessageIsHandled(counted, g, peer, hash, honest, m, env);
      SettlingIsHandled(s.disk, s.transfer, Handle(counted, g, peer, hash, m, env), inode, peer, hash, honest);
    }
  }

  /** What an honest owner has stored vouches for the same prefix of its source. */
  lemma StoredPrefixVouches(d: Disk, t: Transfer, peer: Key, hash: seq<byte> -> Digest, honest: set<Key>)
    requires DiskInv(d, hash, honest) && Owns(d, t, peer) && peer in honest
    ensures VouchesForPrefix(Files.PrefixHash(d, t, hash), t.offset, t.metadata.manifest.sha256, hash)
  {
    assert PartOf(d, t.id) == Some(t.inode);
    forall source: seq<byte> | hash(source) == t.metadata.manifest.sha256
      ensures t.offset <= |source| && Files.PrefixHash(d, t, hash) == hash(source[..t.offset])
    {
      assert Content(d, t.inode) <= source;
      assert source[..t.offset] == d.files[t.inode];
    }
  }

  /** The chunk an honest sender has under way continues the only source its manifest can describe. */
  lemma HonestChunkIsHonourable(d: Disk, s: Session, source: Source, offset: nat, hash: seq<byte> -> Digest, honest: set<Key>)
    requires DiskInv(d, hash, honest) && SessionInv(d, s, hash, honest) && s.peer in honest && CollisionFree(hash)
    requires s.sender == AwaitProgress(source, offset) && s.toReceiver != []
    ensures Honourable(State(d, s.transfer, 0, [], []), s.peer, hash, honest, s.toReceiver[0])
  {
    var t, m := s.transfer.value, s.toReceiver[0];
    assert PartOf(d, t.id) == Some(t.inode);
    forall other: seq<byte> | hash(other) == t.metadata.manifest.sha256
      ensures Content(d, t.inode) + m.bytes <= other
    {
      assert hash(other) == hash(source.bytes);
      assert Content(d, t.inode) <= source.bytes;
      assert Content(d, t.inode) == source.bytes[..m.offset];
      assert source.bytes[..m.offset] + source.bytes[m.offset..offset] == source.bytes[..offset];
    }
  }

  lemma OpeningIsAnswered(s: State, g: Rights, peer: Key, hash: seq<byte> -> Digest, honest: set<Key>, m: Message, env: Env)
    requires ReceiverReady(s, peer, hash, honest) && s.transfer.None? && s.sent == [] && peer in honest
    requires m.FileOffer? || m.Resume?
    ensures var (end, flow) := Iterate(s, g, peer, hash, m, env);
            if flow.Continue? then
              && |end.sent| == 1 && end.sent[0].Ready? && end.transfer.Some?
              && end.sent[0].manifest == end.transfer.value.metadata.manifest && end.sent[0].offset == end.transfer.value.offset
              && VouchesForPrefix(end.sent[0].prefixHash, end.sent[0].offset, end.sent[0].manifest.sha256, hash)
            else end.sent == []
  {
    var (end, flow) := Iterate(s, g, peer, hash, m, env);
    var inode := IterationIsHandled(s, g, peer, hash, honest, m, env);
    if flow.Continue? {
      assert end.transfer.Some?;
      StoredPrefixVouches(end.disk, end.transfer.value, peer, hash, honest);
    }
  }

  lemma ChunkIsAnswered(s: State, g: Rights, peer: Key, hash: seq<byte> -> Digest, m: Message, env: Env)
    requires Usable(s) && s.transfer.Some? && s.sent == [] && m.Chunk?
    ensures var (end, flow) := Iterate(s, g, peer, hash, m, env);
            if flow.Continue? then
              && end.sent == [Progress(m.offset + |m.bytes|)] && end.transfer.Some?
              && end.transfer.value.metadata == s.transfer.value.metadata && end.transfer.value.offset == m.offset + |m.bytes|
            else end.sent == []
  {
  }

  lemma CommitIsAnswered(s: State, g: Rights, peer: Key, hash: seq<byte> -> Digest, honest: set<Key>, env: Env)
    requires ReceiverReady(s, peer, hash, honest) && s.transfer.Some? && s.sent == []
    ensures var (end, flow) := Iterate(s, g, peer, hash, Commit, env);
            var manifest := s.transfer.value.metadata.manifest;
            && !flow.Continue?
            && (end.sent == [] || (end.sent == [Complete(manifest)] && Delivers(end.disk, manifest, hash)))
  {
    FinishKeeps(s.disk, hash, honest, s.transfer.value, peer, true, env.io);
  }

  /** After the receiver has handled an honest peer's message, the session is in lockstep again. */
  lemma HonestReceiveStaysInStep(w: World, sid: nat, env: Env, hash: seq<byte> -> Digest, honest: set<Key>)
    requires WorldInv(w, hash, honest) && CollisionFree(hash) && sid in w.sessions
    requires w.sessions[sid].serving && w.sessions[sid].toReceiver != [] && w.sessions[sid].peer in honest
    requires Usable(Serving(w, w.sessions[sid]))
    ensures InStep(Receive(w, sid, env, hash).disk, Receive(w, sid, env, hash).sessions[sid], hash)
  {
    var s := w.sessions[sid];
    assert SessionInv(w.disk, s, hash, honest);
    var start, m := Serving(w, s), s.toReceiver[0];
    var (end, flow) := Iterate(start, s.grant, s.peer, hash, m, env);
    var s' := Receive(w, sid, env, hash).sessions[sid];
    assert s'.toReceiver == [] && s'.toSender == end.sent;
    match s.sender {
      case AwaitReady(source) =>
        OpeningIsAnswered(start, s.grant, s.peer, hash, honest, m, env);
      case AwaitProgress(source, offset) =>
        ChunkIsAnswered(start, s.grant, s.peer, hash, m, env);
      case AwaitComplete(source) =>
        CommitIsAnswered(start, s.grant, s.peer, hash, honest, env);
      case _ =>
    }
  }

  /** A session whose step touches one file that is its own, or nobody's, leaves the whole world sound. */
  lemma StepOfOneSession(w: World, w': World, sid: nat, s': Session, inode: nat, hash: seq<byte> -> Digest, honest: set<Key>)
    requires WorldInv(w, hash, honest) && sid in w.sessions && w'.sessions == w.sessions[sid := s']
    requires DiskInv(w'.disk, hash, honest) && Respects(w.disk, w'.disk, inode) && Free(w.disk, w.sessions[sid].transfer, inode)
    requires SessionInv(w'.disk, s', hash, honest) && (s'.transfer.Some? ==> s'.transfer.value.inode == inode)
    ensures WorldInv(w', hash, honest)
  {
    forall i | i in w.sessions && i != sid
      ensures SessionInv(w'.disk, w'.sessions[i], hash, honest)
      ensures w.sessions[i].transfer.Some? ==> w.sessions[i].transfer.value.inode != inode
    {
      assert SessionInv(w.disk, w.sessions[i], hash, honest);
      BystanderKeeps(w.disk, w'.disk, w.sessions[i], inode, hash, honest);
    }
  }

  lemma ReceiveKeeps(w: World, sid: nat, env: Env, hash: seq<byte> -> Digest, honest: set<Key>)
    requires WorldInv(w, hash, honest) && CollisionFree(hash) && sid in w.sessions
    requires w.sessions[sid].serving && w.sessions[sid].toReceiver != []
    requires Usable(Serving(w, w.sessions[sid]))
    ensures WorldInv(Receive(w, sid, env, hash), hash, honest)
    ensures KeepsOrdinaryFiles(w.disk, Receive(w, sid, env, hash).disk)
  {
    var s := w.sessions[sid];
    assert SessionInv(w.disk, s, hash, honest);
    if s.peer in honest && s.sender.AwaitProgress? {
      HonestChunkIsHonourable(w.disk, s, s.sender.source, s.sender.offset, hash, honest);
    }
    var inode := IterationIsHandled(Serving(w, s), s.grant, s.peer, hash, honest, s.toReceiver[0], env);
    var w' := Receive(w, sid, env, hash);
    if s.peer in honest { HonestReceiveStaysInStep(w, sid, env, hash, honest); }
    StepOfOneSession(w, w', sid, w'.sessions[sid], inode, hash, honest);
  }

  lemma CutKeeps(w: World, sid: nat, hash: seq<byte> -> Digest, honest: set<Key>)
    requires WorldInv(w, hash, honest) && sid in w.sessions
    ensures WorldInv(Disconnect(w, sid), hash, honest)
    ensures KeepsOrdinaryFiles(w.disk, Disconnect(w, sid).disk)
  {
    var s, w' := w.sessions[sid], Disconnect(w, sid);
    var inode := if s.transfer.Some? then s.transfer.value.inode else w.disk.next;
    UnlockingKeeps(w.disk, hash, honest, inode);
    assert Unlock(w.disk, w.disk.next) == w.disk;
    forall i | i in w'.sessions ensures SessionInv(w'.disk, w'.sessions[i], hash, honest) {
      assert SessionInv(w.disk, w.sessions[i], hash, honest);
      BystanderKeeps(w.disk, w'.disk, w.sessions[i], inode, hash, honest);
    }
  }

  /** The sender's half of a session: its own moves keep the lockstep. */
  lemma SenderKeepsStep(d: Disk, s: Session, hash: seq<byte> -> Digest, honest: set<Key>)
    requires SessionInv(d, s, hash, honest) && s.peer in honest
    ensures var spoken := Speak(s.sender, hash);
            spoken.Some? ==>
              SessionInv(d, s.(sender := spoken.value.0, toReceiver := s.toReceiver + [spoken.value.1]), hash, honest)
    ensures s.toSender != [] ==>
              SessionInv(d, s.(sender := Listen(s.sender, s.toSender[0], hash), toSender := s.toSender[1..]), hash, honest)
  {
  }

  lemma UpdateKeeps(w: World, sid: nat, s: Session, hash: seq<byte> -> Digest, honest: set<Key>)
    requires WorldInv(w, hash, honest) && SessionInv(w.disk, s, hash, honest)
    requires s.transfer.Some? ==> sid in w.sessions && s.transfer == w.sessions[sid].transfer
    ensures WorldInv(Update(w, sid, s), hash, honest)
  {
  }

  lemma CreateKeeps(w: World, name: string, bytes: seq<byte>, hash: seq<byte> -> Digest, honest: set<Key>)
    requires WorldInv(w, hash, honest) && !Exists(w.disk, Plain(name)) && Ordinary(name)
    ensures WorldInv(Create(w, name, bytes), hash, honest)
    ensures KeepsOrdinaryFiles(w.disk, Create(w, name, bytes).disk)
  {
    var d, d' := w.disk, Create(w, name, bytes).disk;
    forall id: TransferId ensures PartOf(d', id) == PartOf(d, id) && RecordOf(d', id) == RecordOf(d, id) {
    }
    assert DiskInv(d', hash, honest);
    assert Respects(d, d', d.next);
    forall i | i in w.sessions ensures SessionInv(d', w.sessions[i], hash, honest) {
      assert SessionInv(d, w.sessions[i], hash, honest);
      BystanderKeeps(d, d', w.sessions[i], d.next, hash, honest);
    }
  }

  lemma PerformKeeps(w: World, sid: nat, move: Move, hash: seq<byte> -> Digest, honest: set<Key>)
    requires WorldInv(w, hash, honest) && CollisionFree(hash) && sid in w.sessions && Usable(Serving(w, w.sessions[sid]))
    ensures WorldInv(Perform(w, sid, move, hash, honest), hash, honest)
    ensures KeepsOrdinaryFiles(w.disk, Perform(w, sid, move, hash, honest).disk)
  {
    var s := w.sessions[sid];
    assert SessionInv(w.disk, s, hash, honest);
    match move {
      case SenderSpeaks =>
        var spoken := Speak(s.sender, hash);
        if spoken.Some? {
          SenderKeepsStep(w.disk, s, hash, honest);
          UpdateKeeps(w, sid, s.(sender := spoken.value.0, toReceiver := s.toReceiver + [spoken.value.1]), hash, honest);
        }
      case SenderListens =>
        if s.toSender != [] && !s.sender.Hostile? {
          SenderKeepsStep(w.disk, s, hash, honest);
          UpdateKeeps(w, sid, s.(sender := Listen(s.sender, s.toSender[0], hash), toSender := s.toSender[1..]), hash, honest);
        }
      case Inject(m) =>
        if s.peer !in honest { UpdateKeeps(w, sid, s.(toReceiver := s.toReceiver + [m]), hash, honest); }
      case Deliver(env) =>
        if s.serving && s.toReceiver != [] { ReceiveKeeps(w, sid, env, hash, honest); }
      case Cut => CutKeeps(w, sid, hash, honest);
    }
  }

  /** Every step keeps the invariant and every ordinary file. */
  lemma NextKeeps(w: World, e: Event, hash: seq<byte> -> Digest, honest: set<Key>)
    requires WorldInv(w, hash, honest) && CollisionFree(hash)
    requires forall i | i in w.sessions :: Usable(Serving(w, w.sessions[i]))
    ensures WorldInv(Next(w, e, hash, honest), hash, honest)
    ensures KeepsOrdinaryFiles(w.disk, Next(w, e, hash, honest).disk)
  {
    match e {
      case Open(sid, peer, grant, sender) =>
        if sid !in w.sessions && MayOpen(peer, sender, honest) {
          UpdateKeeps(w, sid, Session(peer, grant, [], [], None, 0, true, sender), hash, honest);
        }
      case Act(sid, move) => if sid in w.sessions { PerformKeeps(w, sid, move, hash, honest); }
      case UserCreates(name, bytes) =>
        if !Exists(w.disk, Plain(name)) && Ordinary(name) { CreateKeeps(w, name, bytes, hash, honest); }
    }
  }

  ghost function Run(w: World, events: seq<Event>, hash: seq<byte> -> Digest, honest: set<Key>): (w': World)
    requires WorldInv(w, hash, honest) && CollisionFree(hash)
    ensures WorldInv(w', hash, honest)
    ensures KeepsOrdinaryFiles(w.disk, w'.disk)
    decreases |events|
  {
    InvIsUsable(w, hash, honest);
    if events == [] then w
    else
      NextKeeps(w, events[0], hash, honest);
      Run(Next(w, events[0], hash, honest), events[1..], hash, honest)
  }

  /** A directory without transfer files and without locks is a sound place to start, whatever else it holds. */
  lemma FreshDirectoryIsSound(d: Disk, hash: seq<byte> -> Digest, honest: set<Key>)
    requires Structured(d)
    requires forall id: TransferId :: Part(id) !in d.names
    ensures WorldInv(World(d, map[]), hash, honest)
  {
  }

  /** Nothing that exists is ever overwritten, in any run of any sessions, honest or not. */
  lemma NoRunOverwrites(w: World, events: seq<Event>, hash: seq<byte> -> Digest, honest: set<Key>, name: string)
    requires WorldInv(w, hash, honest) && CollisionFree(hash)
    requires Plain(name) in w.disk.names
    ensures var d := Run(w, events, hash, honest).disk;
            Plain(name) in d.names && Content(d, d.names[Plain(name)]) == Content(w.disk, w.disk.names[Plain(name)])
  {
  }

  /** When an honest sender learns of its success, the receiver's directory holds the source, and goes on holding it. */
  lemma SuccessMeansDelivery(w: World, before: seq<Event>, after: seq<Event>, hash: seq<byte> -> Digest, honest: set<Key>, sid: nat)
    requires WorldInv(w, hash, honest) && CollisionFree(hash)
    requires sid in Run(w, before, hash, honest).sessions
    requires var s := Run(w, before, hash, honest).sessions[sid]; s.peer in honest && s.sender.Succeeded?
    ensures var w1 := Run(w, before, hash, honest);
            Delivered(Run(w1, after, hash, honest).disk, w1.sessions[sid].sender.source)
  {
    var w1 := Run(w, before, hash, honest);
    var s := w1.sessions[sid];
    assert SessionInv(w1.disk, s, hash, honest);
    DeliveredStays(w1.disk, Run(w1, after, hash, honest).disk, s.sender.source);
  }

  /** After any number of cut sessions, a stored part of an honest owner is a prefix of the source its record describes. */
  lemma EveryRunStoresPrefixes(w: World, events: seq<Event>, hash: seq<byte> -> Digest, honest: set<Key>, id: TransferId, source: Source)
    requires WorldInv(w, hash, honest) && CollisionFree(hash)
    requires var d := Run(w, events, hash, honest).disk;
             PartOf(d, id).Some? && RecordOf(d, id).Some? && RecordOf(d, id).value.owner in honest
             && RecordOf(d, id).value.manifest == Describe(source, hash)
    ensures var d := Run(w, events, hash, honest).disk;
            Content(d, PartOf(d, id).value) <= source.bytes
  {
    var d := Run(w, events, hash, honest).disk;
    assert PrefixOfSource(Content(d, PartOf(d, id).value), hash, RecordOf(d, id).value.manifest.sha256);
    assert hash(source.bytes) == RecordOf(d, id).value.manifest.sha256;
  }

  /** In every reachable world the part file of a live transfer is exactly as long as its offset says. */
  lemma EveryRunKeepsOffsets(w: World, events: seq<Event>, hash: seq<byte> -> Digest, honest: set<Key>, sid: nat)
    requires WorldInv(w, hash, honest) && CollisionFree(hash)
    requires sid in Run(w, events, hash, honest).sessions && Run(w, events, hash, honest).sessions[sid].transfer.Some?
    ensures var w' := Run(w, events, hash, honest);
            var t := w'.sessions[sid].transfer.value;
            |Content(w'.disk, t.inode)| == t.offset <= t.metadata.manifest.size
  {
    var w' := Run(w, events, hash, honest);
    assert SessionInv(w'.disk, w'.sessions[sid], hash, honest);
  }

  /** Resumption never refuses honest data: a waiting sender whose manifest matches always goes on from the stored offset. */
  lemma HonestResumptionIsAccepted(w: World, events: seq<Event>, hash: seq<byte> -> Digest, honest: set<Key>, sid: nat)
    requires WorldInv(w, hash, honest) && CollisionFree(hash)
    requires sid in Run(w, events, hash, honest).sessions
    requires var s := Run(w, events, hash, honest).sessions[sid];
             s.peer in honest && s.sender.AwaitReady? && s.toSender != [] && s.toSender[0].Ready?
             && s.toSender[0].manifest == Describe(s.sender.source, hash)
    ensures var s := Run(w, events, hash, honest).sessions[sid];
            Listen(s.sender, s.toSender[0], hash) == Sending(s.sender.source, s.transfer.value.offset)
  {
    var w' := Run(w, events, hash, honest);
    var s := w'.sessions[sid];
    assert SessionInv(w'.disk, s, hash, honest);
    assert hash(s.sender.source.bytes) == s.toSender[0].manifest.sha256;
  }

  lemma HandlingAddsNoOtherName(s: State, g: Rights, peer: Key, hash: seq<byte> -> Digest, honest: set<Key>, m: Message, env: Env,
                                name: string)
    requires ReceiverReady(s, peer, hash, honest) && Plain(name) !in s.disk.names
    ensures var disk := Handle(s, g, peer, hash, m, env).0.disk;
            Plain(name) in disk.names ==>
              && m == Commit && s.transfer.Some? && name == s.transfer.value.metadata.manifest.name
              && Delivers(disk, s.transfer.value.metadata.manifest, hash)
  {
    match m {
      case Commit =>
        if s.transfer.Some? { FinishKeeps(s.disk, hash, honest, s.transfer.value, peer, true, env.io); }
      case FileOffer(manifest) => OfferAddsOnlyItsPart(s.disk, peer, manifest, env.id, env.io);
      case Chunk(_, _, _) =>
      case Resume(_) =>
      case Cancel =>
      case Pause =>
      case _ =>
    }
  }

  lemma OfferAddsOnlyItsPart(d: Disk, owner: Key, manifest: Manifest, id: TransferId, io: IoPlan)
    ensures BeginTransfer(d, true, owner, manifest, id, io).0.names.Keys <= d.names.Keys + {Part(id)}
  {
  }

  /** The only names a session brings into the directory are announced ones, with the announced size and hash. */
  lemma PublicationIsVerified(w: World, sid: nat, env: Env, hash: seq<byte> -> Digest, honest: set<Key>, name: string)
    requires WorldInv(w, hash, honest) && CollisionFree(hash) && sid in w.sessions
    requires w.sessions[sid].serving && w.sessions[sid].toReceiver != [] && Usable(Serving(w, w.sessions[sid]))
    requires Plain(name) !in w.disk.names && Plain(name) in Receive(w, sid, env, hash).disk.names
    ensures var s, d := w.sessions[sid], Receive(w, sid, env, hash).disk;
            && s.toReceiver[0] == Commit && s.transfer.Some? && name == s.transfer.value.metadata.manifest.name
            && Delivers(d, s.transfer.value.metadata.manifest, hash)
            && (s.peer in honest ==> s.sender.AwaitComplete? && name == s.sender.source.name && Delivered(d, s.sender.source))
  {
    var s := w.sessions[sid];
    assert SessionInv(w.disk, s, hash, honest);
    var counted := Counted(Serving(w, s), env);
    if counted.operations <= MAX_OPERATIONS {
      HandlingAddsNoOtherName(counted, s.grant, s.peer, hash, honest, s.toReceiver[0], env, name);
    }
  }
}
