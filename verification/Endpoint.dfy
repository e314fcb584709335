/** One served session: the request, the local decision, the operation loop and the audit trail it leaves. */
module Endpoint {
  import opened Wrappers
  import opened Names
  import opened Files
  import opened P = Permissions

  const MAX_CHAT_BYTES := 8192
  const DEFAULT_RECEIVE_LIMIT := 1024 * 1024 * 1024
  const MAX_OPERATIONS := 100_000

  datatype Mode = ChatOnly | FilesOnly | ScreenView | RemoteControl | ScreenViewClipboard | RemoteControlClipboard

  function ModePermissions(m: Mode): Profile {
    match m
    case ChatOnly => Of([Chat])
    case FilesOnly => Of([FileManager])
    case ScreenView => Of([ViewDesktop, RemotePointer])
    case RemoteControl => Of([ViewDesktop, RemotePointer, Input])
    case ScreenViewClipboard => Of([ViewDesktop, RemotePointer, ClipboardText])
    case RemoteControlClipboard => Of([ViewDesktop, RemotePointer, Input, ClipboardText])
  }

  /** The two permissions the operation loop asks for. */
  datatype Rights = Rights(chat: bool, files: bool)

  function RightsOf(g: Grant): Rights { Rights(Permits(g, Chat), Permits(g, FileManager)) }

  predicate IsDesktop(m: Mode) { m != ChatOnly && m != FilesOnly }

  datatype Message =
    | Request(mode: Mode)
    | Accepted(granted: Profile)
    | Rejected
    | ChatText(text: string)
    | FileOffer(manifest: Manifest)
    | Resume(id: TransferId)
    | Ready(id: TransferId, offset: nat, prefixHash: Digest, manifest: Manifest)
    | Chunk(offset: nat, bytes: seq<byte>, checksum: Digest)
    | Progress(received: nat)
    | Commit
    | Complete(manifest: Manifest)
    | Pause
    | Paused(id: TransferId)
    | Cancel
    | Cancelled
    | Close
    | Desktop

  datatype Action =
    | ConnectionRequested | SessionAccepted | SessionRejected | SessionDisconnected
    | FileOffered | FileCompleted | FileCancelled

  datatype Outcome = Success | Denied | Failure

  datatype Entry = Entry(action: Action, outcome: Outcome, bytes: nat)

  datatype EndpointError = ConnectionFailed | NotPermitted | FileFailed(error: FileError) | AuditFailed | InvalidOperation | DesktopFailed

  datatype Flow = Continue | Done | Failed(error: EndpointError)

  /** Everything one loop iteration takes from outside: I/O faults, the fresh identifier, the local user, the clock. */
  datatype Env = Env(io: IoPlan, id: TransferId, reply: Option<string>, windowElapsed: bool, auditOk: bool, sendOk: bool)

  datatype State = State(disk: Disk, transfer: Option<Transfer>, operations: nat, log: seq<Entry>, sent: seq<Message>)

  ghost predicate Usable(s: State) {
    Structured(s.disk) && (s.transfer.Some? ==> Opened(s.disk, s.transfer.value))
  }

  /** Leaving the loop drops the open transfer and with it the lock on its part file. */
  function Leave(s: State): State {
    if s.transfer.Some? then s.(disk := Unlock(s.disk, s.transfer.value.inode), transfer := None) else s
  }

  function Send(s: State, m: Message, env: Env, next: Flow): (State, Flow) {
    if env.sendOk then (s.(sent := s.sent + [m]), next) else (s, Failed(ConnectionFailed))
  }

  function Announce(s: State, t: Transfer, hash: seq<byte> -> Digest, env: Env): (State, Flow)
    requires Opened(s.disk, t)
  {
    if env.io.failing == 7 then (s.(transfer := Some(t)), Failed(FileFailed(Io)))
    else Send(s.(transfer := Some(t)), Ready(t.id, t.offset, PrefixHash(s.disk, t, hash), t.metadata.manifest), env, Continue)
  }

  function HandleChat(s: State, g: Rights, text: string, env: Env): (State, Flow) {
    if !g.chat then (s, Failed(NotPermitted))
    else if Utf8Length(text) > MAX_CHAT_BYTES then (s, Failed(InvalidOperation))
    else match env.reply
      case None => Send(s, Close, env, Done)
      case Some(reply) =>
        if Utf8Length(reply) > MAX_CHAT_BYTES then (s, Failed(InvalidOperation))
        else Send(s, ChatText(reply), env, Continue)
  }

  function HandleOffer(s: State, g: Rights, peer: Key, hash: seq<byte> -> Digest, manifest: Manifest, env: Env): (State, Flow)
    requires Usable(s)
  {
    if !g.files then (s, Failed(NotPermitted))
    else if s.transfer.Some? || manifest.size > DEFAULT_RECEIVE_LIMIT then (s, Failed(InvalidOperation))
    else if !env.auditOk then (s, Failed(AuditFailed))
    else
      var (disk, r) := BeginTransfer(s.disk, true, peer, manifest, env.id, env.io);
      var s1 := s.(disk := disk, log := s.log + [Entry(FileOffered, Success, manifest.size)]);
      if r.Err? then (s1, Failed(FileFailed(r.error))) else Announce(s1, r.value, hash, env)
  }

  function HandleResume(s: State, g: Rights, peer: Key, hash: seq<byte> -> Digest, id: TransferId, env: Env): (State, Flow)
    requires Usable(s)
  {
    if !g.files then (s, Failed(NotPermitted))
    else if s.transfer.Some? then (s, Failed(InvalidOperation))
    else
      var (disk, r) := ResumeTransfer(s.disk, true, peer, id, env.io);
      var s1 := s.(disk := disk);
      if r.Err? then (s1, Failed(FileFailed(r.error)))
      else if r.value.metadata.manifest.size > DEFAULT_RECEIVE_LIMIT then (s1.(transfer := Some(r.value)), Failed(InvalidOperation))
      else Announce(s1, r.value, hash, env)
  }

  function HandleChunk(s: State, g: Rights, hash: seq<byte> -> Digest, offset: nat, bytes: seq<byte>, checksum: Digest, env: Env)
    : (State, Flow)
    requires Usable(s)
  {
    if !g.files then (s, Failed(NotPermitted))
    else if s.transfer.None? then (s, Failed(InvalidOperation))
    else
      var (disk, t, r) := PutChunk(s.disk, s.transfer.value, hash, true, offset, bytes, checksum, env.io);
      var s1 := s.(disk := disk, transfer := Some(t));
      if r.Err? then (s1, Failed(FileFailed(r.error))) else Send(s1, Progress(t.offset), env, Continue)
  }

  function HandleCommit(s: State, g: Rights, hash: seq<byte> -> Digest, env: Env): (State, Flow)
    requires Usable(s)
  {
    if !g.files then (s, Failed(NotPermitted))
    else if s.transfer.None? then (s, Failed(InvalidOperation))
    else
      var (disk, r) := FinishTransfer(s.disk, s.transfer.value, hash, true, env.io);
      var s1 := s.(disk := disk, transfer := None);
      if r.Err? then (s1, Failed(FileFailed(r.error)))
      else if !env.auditOk then (s1, Failed(AuditFailed))
      else Send(s1.(log := s1.log + [Entry(FileCompleted, Success, r.value.size)]), Complete(r.value), env, Done)
  }

  function HandlePause(s: State, g: Rights, env: Env): (State, Flow) {
    if !g.files then (s, Failed(NotPermitted))
    else if s.transfer.None? then (s, Failed(InvalidOperation))
    else
      var s1 := Leave(s);
      if env.io.failing == 0 then (s1, Failed(FileFailed(Io))) else Send(s1, Paused(s.transfer.value.id), env, Done)
  }

  function HandleCancel(s: State, g: Rights, env: Env): (State, Flow) {
    if !g.files then (s, Failed(NotPermitted))
    else if s.transfer.None? then (s, Failed(InvalidOperation))
    else
      var (disk, r) := CancelTransfer(s.disk, s.transfer.value, true, env.io);
      var s1 := s.(disk := disk, transfer := None);
      if r.Err? then (s1, Failed(FileFailed(r.error)))
      else if !env.auditOk then (s1, Failed(AuditFailed))
      else Send(s1.(log := s1.log + [Entry(FileCancelled, Success, 0)]), Cancelled, env, Done)
  }

  function Handle(s: State, g: Rights, peer: Key, hash: seq<byte> -> Digest, m: Message, env: Env): (State, Flow)
    requires Usable(s)
  {
    match m
    case Close => (s, Done)
    case ChatText(text) => HandleChat(s, g, text, env)
    case FileOffer(manifest) => HandleOffer(s, g, peer, hash, manifest, env)
    case Resume(id) => HandleResume(s, g, peer, hash, id, env)
    case Chunk(offset, bytes, checksum) => HandleChunk(s, g, hash, offset, bytes, checksum, env)
    case Commit => HandleCommit(s, g, hash, env)
    case Pause => HandlePause(s, g, env)
    case Cancel => HandleCancel(s, g, env)
    case _ => (s, Failed(InvalidOperation))
  }

  function Counted(s: State, env: Env): State {
    s.(operations := (if env.windowElapsed then 0 else s.operations) + 1)
  }

  /** Any outcome but Continue leaves the loop. */
  function Settle(r: (State, Flow)): (State, Flow) {
    if r.1.Continue? then r else (Leave(r.0), r.1)
  }

  /** A message is counted, and handled only below the flood bound. */
  function Admit(s: State, g: Rights, peer: Key, hash: seq<byte> -> Digest, m: Message, env: Env): (State, Flow)
    requires Usable(s)
  {
    if Counted(s, env).operations > MAX_OPERATIONS then (Counted(s, env), Failed(InvalidOperation))
    else Handle(Counted(s, env), g, peer, hash, m, env)
  }

  /** One iteration of the operation loop, including the drop of the transfer on the way out. */
  function Iterate(s: State, g: Rights, peer: Key, hash: seq<byte> -> Digest, m: Message, env: Env): (State, Flow)
    requires Usable(s)
  {
    Settle(Admit(s, g, peer, hash, m, env))
  }

  lemma BeginIsUsable(d: Disk, owner: Key, manifest: Manifest, id: TransferId, io: IoPlan)
    requires Structured(d)
    ensures var (d', r) := BeginTransfer(d, true, owner, manifest, id, io); Structured(d') && (r.Ok? ==> Opened(d', r.value))
  {
    if io.failing >= 3 {
      var locked := Disk(d.names[Part(id) := d.next], d.files[d.next := []], d.records, d.locked + {d.next}, d.next + 1);
      assert Structured(locked);
    }
  }

  lemma FinishIsUsable(d: Disk, t: Transfer, hash: seq<byte> -> Digest, io: IoPlan)
    requires Structured(d) && Opened(d, t)
    ensures Structured(FinishTransfer(d, t, hash, true, io).0)
  {
  }

  lemma CancelIsUsable(d: Disk, t: Transfer, io: IoPlan)
    requires Structured(d)
    ensures Structured(CancelTransfer(d, t, true, io).0)
  {
  }

  lemma ChunkIsUsable(d: Disk, t: Transfer, hash: seq<byte> -> Digest, offset: nat, bytes: seq<byte>, checksum: Digest, io: IoPlan)
    requires Structured(d) && Opened(d, t)
    ensures var (d', t', r) := PutChunk(d, t, hash, true, offset, bytes, checksum, io); Structured(d') && Opened(d', t')
  {
  }

  lemma OfferKeepsUsable(s: State, g: Rights, peer: Key, hash: seq<byte> -> Digest, manifest: Manifest, env: Env)
    requires Usable(s)
    ensures Usable(HandleOffer(s, g, peer, hash, manifest, env).0)
  {
    BeginIsUsable(s.disk, peer, manifest, env.id, env.io);
  }

  lemma ResumeKeepsUsable(s: State, g: Rights, peer: Key, hash: seq<byte> -> Digest, id: TransferId, env: Env)
    requires Usable(s)
    ensures Usable(HandleResume(s, g, peer, hash, id, env).0)
  {
  }

  lemma ChunkKeepsUsable(s: State, g: Rights, hash: seq<byte> -> Digest, m: Message, env: Env)
    requires Usable(s) && m.Chunk?
    ensures Usable(HandleChunk(s, g, hash, m.offset, m.bytes, m.checksum, env).0)
  {
    if s.transfer.Some? { ChunkIsUsable(s.disk, s.transfer.value, hash, m.offset, m.bytes, m.checksum, env.io); }
  }

  lemma CommitKeepsUsable(s: State, g: Rights, hash: seq<byte> -> Digest, env: Env)
    requires Usable(s)
    ensures Usable(HandleCommit(s, g, hash, env).0)
  {
    if s.transfer.Some? { FinishIsUsable(s.disk, s.transfer.value, hash, env.io); }
  }

  lemma CancelKeepsUsable(s: State, g: Rights, env: Env)
    requires Usable(s)
    ensures Usable(HandleCancel(s, g, env).0)
  {
    if s.transfer.Some? { CancelIsUsable(s.disk, s.transfer.value, env.io); }
  }

  lemma HandleKeepsUsable(s: State, g: Rights, peer: Key, hash: seq<byte> -> Digest, m: Message, env: Env)
    requires Usable(s)
    ensures Usable(Handle(s, g, peer, hash, m, env).0)
  {
    match m {
      case FileOffer(manifest) => OfferKeepsUsable(s, g, peer, hash, manifest, env);
      case Resume(id) => ResumeKeepsUsable(s, g, peer, hash, id, env);
      case Chunk(_, _, _) => ChunkKeepsUsable(s, g, hash, m, env);
      case Commit => CommitKeepsUsable(s, g, hash, env);
      case Cancel => CancelKeepsUsable(s, g, env);
      case _ =>
    }
  }

  lemma IterateKeepsUsable(s: State, g: Rights, peer: Key, hash: seq<byte> -> Digest, m: Message, env: Env)
    requires Usable(s)
    ensures Usable(Iterate(s, g, peer, hash, m, env).0)
    ensures !Iterate(s, g, peer, hash, m, env).1.Continue? ==> Iterate(s, g, peer, hash, m, env).0.transfer.None?
  {
    HandleKeepsUsable(Counted(s, env), g, peer, hash, m, env);
  }

  /** The loop over everything the peer sends; when the input ends, receiving fails. */
  function Operate(s: State, g: Rights, peer: Key, hash: seq<byte> -> Digest, inbox: seq<(Message, Env)>): (State, Flow)
    requires Usable(s)
    decreases |inbox|
  {
    if inbox == [] then (Leave(s), Failed(ConnectionFailed))
    else
      var (s', flow) := Iterate(s, g, peer, hash, inbox[0].0, inbox[0].1);
      IterateKeepsUsable(s, g, peer, hash, inbox[0].0, inbox[0].1);
      if flow.Continue? then Operate(s', g, peer, hash, inbox[1..]) else (s', flow)
  }
}
