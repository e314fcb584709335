/** What the audit trail of a served session says, and which effects consent can have allowed. */
module SessionTrace {
  import opened Wrappers
  import opened Names
  import opened Files
  import opened P = Permissions
  import opened Endpoint
  import opened DirectoryInvariant

  /** The audit appends and sends around the operation loop, and the outcome of a desktop session. */
  datatype Admin = Admin(auditRequest: bool, auditDecision: bool, sendDecision: bool, auditEnd: bool, desktopOk: bool)

  datatype Served = Served(disk: Disk, log: seq<Entry>, sent: seq<Message>, flow: Flow)

  const REQUESTED := Entry(ConnectionRequested, Success, 0)
  const REJECTED := Entry(SessionRejected, Outcome.Denied, 0)
  const ACCEPTED := Entry(SessionAccepted, Success, 0)

  function Disconnected(flow: Flow): Entry {
    Entry(SessionDisconnected, if flow.Done? then Success else Failure, 0)
  }

  function Serve(disk: Disk, hash: seq<byte> -> Digest, peer: Key, first: Option<Message>, accepts: bool, admin: Admin,
                 inbox: seq<(Message, Env)>): Served
    requires Structured(disk)
  {
    if first.None? then Served(disk, [], [], Failed(ConnectionFailed))
    else if !first.value.Request? then Served(disk, [], [], Failed(InvalidOperation))
    else if !admin.auditRequest then Served(disk, [], [], Failed(AuditFailed))
    else if !accepts then
      if !admin.auditDecision then Served(disk, [REQUESTED], [], Failed(AuditFailed))
      else if !admin.sendDecision then Served(disk, [REQUESTED, REJECTED], [], Failed(ConnectionFailed))
      else Served(disk, [REQUESTED, REJECTED], [Message.Rejected], Done)
    else
      var mode := first.value.mode;
      if !admin.auditDecision then Served(disk, [REQUESTED], [], Failed(AuditFailed))
      else if !admin.sendDecision then Served(disk, [REQUESTED, ACCEPTED], [], Failed(ConnectionFailed))
      else
        var (end, flow) := Converse(disk, hash, peer, mode, admin.desktopOk, inbox);
        var body := [REQUESTED, ACCEPTED] + end.log;
        var sent := [Accepted(ModePermissions(mode))] + end.sent;
        if !admin.auditEnd then Served(end.disk, body, sent, Failed(AuditFailed))
        else Served(end.disk, body + [Disconnected(flow)], sent, flow)
  }

  /** A session that was accepted has everything its mode asks for. */
  function ModeRights(mode: Mode): Rights { RightsOf(Grant(ModePermissions(mode), ModePermissions(mode), Active)) }

  /** The part of a session that runs under the granted permissions. */
  function Converse(disk: Disk, hash: seq<byte> -> Digest, peer: Key, mode: Mode, desktopOk: bool, inbox: seq<(Message, Env)>)
    : (State, Flow)
    requires Structured(disk)
  {
    var start := State(disk, None, 0, [], []);
    if IsDesktop(mode) then (start, if desktopOk then Done else Failed(DesktopFailed))
    else Operate(start, ModeRights(mode), peer, hash, inbox)
  }

  /** At most one offer, then at most one completion or cancellation. */
  predicate TransferTrail(log: seq<Entry>) {
    && |log| <= 2
    && (forall i | 0 <= i < |log| :: log[i].outcome == Success)
    && (|log| == 1 ==> log[0].action in {FileOffered, FileCompleted, FileCancelled})
    && (|log| == 2 ==> log[0].action == FileOffered && log[1].action in {FileCompleted, FileCancelled})
  }

  /**
   The scope of a session: the peer, the directory at its start, and the manifests the peer may name,
   by offering them or by resuming a part of its own that the directory already held.
   */
  datatype Scope = Scope(peer: Key, hash: seq<byte> -> Digest, from: Disk, asked: iset<Manifest>)

  /** A part of the peer's own that the directory holds, with the manifest recorded for it. */
  ghost predicate Recorded(d: Disk, peer: Key, id: TransferId, m: Manifest) {
    PartOf(d, id).Some? && RecordOf(d, id).Some? && RecordOf(d, id).value.owner == peer && RecordOf(d, id).value.manifest == m
  }

  ghost predicate AsksForRecorded(q: Scope) {
    forall id: TransferId, m: Manifest :: Recorded(q.from, q.peer, id, m) ==> m in q.asked
  }

  /** The announced file is there under its own legal name, which was free when the session started. */
  ghost predicate PublishedAs(d: Disk, q: Scope, m: Manifest) {
    m in q.asked && Delivers(d, m, q.hash) && ValidName(m.name) && Plain(m.name) !in q.from.names
  }

  ghost predicate Published(d: Disk, q: Scope, size: nat) {
    exists m: Manifest :: PublishedAs(d, q, m) && m.size == size
  }

  ghost predicate EntriesArePublished(d: Disk, q: Scope, log: seq<Entry>) {
    forall i | 0 <= i < |log| && log[i].action == FileCompleted :: Published(d, q, log[i].bytes)
  }

  ghost predicate RepliesArePublished(d: Disk, q: Scope, sent: seq<Message>) {
    forall i | 0 <= i < |sent| && sent[i].Complete? :: PublishedAs(d, q, sent[i].manifest)
  }

  ghost predicate CompletionsArePublished(s: State, q: Scope) {
    EntriesArePublished(s.disk, q, s.log) && RepliesArePublished(s.disk, q, s.sent)
  }

  /** Inside the loop: nothing yet, or an offer whose transfer is still open, and no completion reported. */
  predicate OpenTrail(s: State) {
    && (s.log == [] || (|s.log| == 1 && s.log[0].action == FileOffered && s.log[0].outcome == Success && s.transfer.Some?))
    && (forall i | 0 <= i < |s.sent| :: !s.sent[i].Complete?)
  }

  /** The loop's own state is sound: the directory, still as it was until a transfer opens, and the transfer it holds open. */
  ghost predicate Sound(s: State, q: Scope) {
    && DiskInv(s.disk, q.hash, {})
    && Usable(s)
    && KeepsOrdinaryFiles(q.from, s.disk)
    && AsksForRecorded(q)
    && (if s.transfer.Some? then Owns(s.disk, s.transfer.value, q.peer) && s.transfer.value.metadata.manifest in q.asked
        else s.disk == q.from)
  }

  lemma LeavingKeeps(s: State, q: Scope)
    requires DiskInv(s.disk, q.hash, {}) && CompletionsArePublished(s, q)
    ensures DiskInv(Leave(s).disk, q.hash, {}) && CompletionsArePublished(Leave(s), q)
  {
    if s.transfer.Some? {
      UnlockingKeeps(s.disk, q.hash, {}, s.transfer.value.inode);
      var d := Leave(s).disk;
      assert forall m: Manifest :: PublishedAs(s.disk, q, m) ==> PublishedAs(d, q, m);
      forall i | 0 <= i < |s.log| && s.log[i].action == FileCompleted ensures Published(d, q, s.log[i].bytes) {
        var m: Manifest :| PublishedAs(s.disk, q, m) && m.size == s.log[i].bytes;
        assert PublishedAs(d, q, m);
      }
    }
  }

  /** What one handled message leaves behind. */
  ghost predicate Leaves(r: (State, Flow), q: Scope) {
    && DiskInv(r.0.disk, q.hash, {}) && TransferTrail(r.0.log) && CompletionsArePublished(r.0, q)
    && (r.1.Continue? ==> Sound(r.0, q) && OpenTrail(r.0))
  }

  lemma ChatLeaves(s: State, g: Rights, q: Scope, text: string, env: Env)
    requires Sound(s, q) && OpenTrail(s)
    ensures Leaves(HandleChat(s, g, text, env), q)
  {
    var (end, _) := HandleChat(s, g, text, env);
    assert end == s.(sent := end.sent) && forall i | 0 <= i < |end.sent| :: !end.sent[i].Complete?;
  }

  lemma OfferLeaves(s: State, g: Rights, q: Scope, manifest: Manifest, env: Env)
    requires Sound(s, q) && OpenTrail(s) && manifest in q.asked
    ensures Leaves(HandleOffer(s, g, q.peer, q.hash, manifest, env), q)
  {
    if s.transfer.None? { var _, _ := OfferBegins(s, q, manifest, env); }
  }

  lemma OfferBegins(s: State, q: Scope, manifest: Manifest, env: Env) returns (disk: Disk, r: Result<Transfer, FileError>)
    requires Sound(s, q) && s.transfer.None?
    ensures (disk, r) == BeginTransfer(s.disk, true, q.peer, manifest, env.id, env.io)
    ensures DiskInv(disk, q.hash, {}) && KeepsOrdinaryFiles(q.from, disk)
    ensures r.Ok? ==> Owns(disk, r.value, q.peer) && Opened(disk, r.value) && r.value.metadata.manifest == manifest
  {
    var t := BeginTransfer(s.disk, true, q.peer, manifest, env.id, env.io);
    disk, r := t.0, t.1;
    BeginKeeps(s.disk, q.hash, {}, true, q.peer, manifest, env.id, env.io);
    BeginOwns(s.disk, true, q.peer, manifest, env.id, env.io);
  }

  /** A part that resumes was recorded before the session, since no transfer has been open in it yet. */
  lemma ResumedIsRecorded(d: Disk, peer: Key, id: TransferId, io: IoPlan)
    ensures var (_, r) := ResumeTransfer(d, true, peer, id, io); r.Ok? ==> Recorded(d, peer, id, r.value.metadata.manifest)
  {
  }

  lemma ResumeLeaves(s: State, g: Rights, q: Scope, id: TransferId, env: Env)
    requires Sound(s, q) && OpenTrail(s)
    ensures Leaves(HandleResume(s, g, q.peer, q.hash, id, env), q)
  {
    ResumeKeeps(s.disk, q.hash, {}, true, q.peer, id, env.io);
    ResumedIsRecorded(s.disk, q.peer, id, env.io);
  }

  lemma ChunkLeaves(s: State, g: Rights, q: Scope, offset: nat, bytes: seq<byte>, checksum: Digest, env: Env)
    requires Sound(s, q) && OpenTrail(s)
    ensures Leaves(HandleChunk(s, g, q.hash, offset, bytes, checksum, env), q)
  {
    if s.transfer.Some? { ChunkKeeps(s.disk, q.hash, {}, s.transfer.value, q.peer, true, offset, bytes, checksum, env.io); }
  }

  /** What finishing publishes: the open transfer's own file, under a name that was free from the start. */
  lemma FinishPublishes(s: State, q: Scope, io: IoPlan)
    requires Sound(s, q) && s.transfer.Some?
    ensures var (d, r) := FinishTransfer(s.disk, s.transfer.value, q.hash, true, io);
            && DiskInv(d, q.hash, {})
            && (r.Ok? ==> r.value == s.transfer.value.metadata.manifest && PublishedAs(d, q, r.value))
  {
    FinishKeeps(s.disk, q.hash, {}, s.transfer.value, q.peer, true, io);
  }

  /** A commit reports and records a completion only of the transfer's own manifest, and only once its file is there. */
  lemma CommitLeaves(s: State, g: Rights, q: Scope, env: Env)
    requires Sound(s, q) && OpenTrail(s)
    ensures Leaves(HandleCommit(s, g, q.hash, env), q)
    ensures var (end, _) := HandleCommit(s, g, q.hash, env);
            end.log != s.log || end.sent != s.sent ==>
              && s.transfer.Some? && PublishedAs(end.disk, q, s.transfer.value.metadata.manifest)
              && end.log == s.log + [Entry(FileCompleted, Success, s.transfer.value.metadata.manifest.size)]
              && (end.sent == s.sent || end.sent == s.sent + [Complete(s.transfer.value.metadata.manifest)])
  {
    if s.transfer.Some? { FinishPublishes(s, q, env.io); }
  }

  lemma CancelLeaves(s: State, g: Rights, q: Scope, env: Env)
    requires Sound(s, q) && OpenTrail(s)
    ensures Leaves(HandleCancel(s, g, env), q)
  {
    if s.transfer.Some? { CancelKeeps(s.disk, q.hash, {}, s.transfer.value, q.peer, true, env.io); }
  }

  lemma PauseLeaves(s: State, g: Rights, q: Scope, env: Env)
    requires Sound(s, q) && OpenTrail(s)
    ensures Leaves(HandlePause(s, g, env), q)
  {
    if s.transfer.Some? { UnlockingKeeps(s.disk, q.hash, {}, s.transfer.value.inode); }
  }

  /** Ending without a change. */
  lemma EndingLeaves(s: State, q: Scope, flow: Flow)
    requires Sound(s, q) && OpenTrail(s) && !flow.Continue?
    ensures Leaves((s, flow), q)
  {
  }

  ghost predicate MayAsk(q: Scope, m: Message) { m.FileOffer? ==> m.manifest in q.asked }

  /** One handled message keeps the trail well formed; a completion is logged only once the file is there. */
  lemma HandleLeaves(s: State, g: Rights, q: Scope, m: Message, env: Env) returns (r: (State, Flow))
    requires Sound(s, q) && OpenTrail(s) && MayAsk(q, m)
    ensures r == Handle(s, g, q.peer, q.hash, m, env) && Leaves(r, q)
  {
    r := Handle(s, g, q.peer, q.hash, m, env);
    match m {
      case ChatText(text) => ChatLeaves(s, g, q, text, env);
      case FileOffer(manifest) => OfferLeaves(s, g, q, manifest, env);
      case Resume(id) => ResumeLeaves(s, g, q, id, env);
      case Chunk(offset, bytes, checksum) => ChunkLeaves(s, g, q, offset, bytes, checksum, env);
      case Commit => CommitLeaves(s, g, q, env);
      case Cancel => CancelLeaves(s, g, q, env);
      case Pause => PauseLeaves(s, g, q, env);
      case _ => EndingLeaves(s, q, r.1);
    }
  }

  lemma SettlingLeaves(r: (State, Flow), q: Scope)
    requires Leaves(r, q)
    ensures Leaves(Settle(r), q)
  {
    if !r.1.Continue? { LeavingKeeps(r.0, q); }
  }

  lemma AdmitLeaves(s: State, g: Rights, q: Scope, m: Message, env: Env)
    requires Sound(s, q) && OpenTrail(s) && MayAsk(q, m)
    ensures Leaves(Admit(s, g, q.peer, q.hash, m, env), q)
  {
    if Counted(s, env).operations <= MAX_OPERATIONS {
      var _ := HandleLeaves(Counted(s, env), g, q, m, env);
    }
  }

  lemma IterateLeaves(s: State, g: Rights, q: Scope, m: Message, env: Env)
    requires Sound(s, q) && OpenTrail(s) && MayAsk(q, m)
    ensures Leaves(Iterate(s, g, q.peer, q.hash, m, env), q)
  {
    AdmitLeaves(s, g, q, m, env);
    SettlingLeaves(Admit(s, g, q.peer, q.hash, m, env), q);
  }

  lemma {:induction false} OperateLeaves(s: State, g: Rights, q: Scope, inbox: seq<(Message, Env)>)
    requires Sound(s, q) && OpenTrail(s) && forall i | 0 <= i < |inbox| :: MayAsk(q, inbox[i].0)
    ensures Leaves(Operate(s, g, q.peer, q.hash, inbox), q) && !Operate(s, g, q.peer, q.hash, inbox).1.Continue?
    decreases |inbox|
  {
    if inbox == [] {
      LeavingKeeps(s, q);
    } else {
      IterateLeaves(s, g, q, inbox[0].0, inbox[0].1);
      var (s', flow) := Iterate(s, g, q.peer, q.hash, inbox[0].0, inbox[0].1);
      if flow.Continue? { OperateLeaves(s', g, q, inbox[1..]); }
    }
  }

  /** The whole trail of a session, by how far it got: every audit record and its order are determined. */
  predicate SessionTrail(log: seq<Entry>, sent: seq<Message>, flow: Flow) {
    || log == []
    || log == [REQUESTED]
    || log == [REQUESTED, REJECTED]
    || (log == [REQUESTED, ACCEPTED] && sent == [])
    || (|log| >= 2 && |sent| >= 1 && sent[0].Accepted? && log[..2] == [REQUESTED, ACCEPTED]
        && (if log[|log| - 1].action == SessionDisconnected
            then TransferTrail(log[2..|log| - 1]) && log[|log| - 1] == Disconnected(flow)
            else TransferTrail(log[2..]) && flow == Failed(AuditFailed)))
  }

  /** What a session over these messages may be asked for: every manifest offered, and every part of the peer's recorded. */
  ghost function ScopeOf(peer: Key, hash: seq<byte> -> Digest, from: Disk, inbox: seq<(Message, Env)>): Scope {
    Scope(peer, hash, from,
            iset m: Manifest | (exists i :: 0 <= i < |inbox| && inbox[i].0 == FileOffer(m)) || (exists id: TransferId :: Recorded(from, peer, id, m)))
  }

  /**
   For every sequence of peer messages and every I/O, audit and send failure: the trail has the fixed shape, and a session
   whose acceptance was sent ends with its disconnection unless that very append fails. Every recorded completion, and
   every completion reported to the peer, is of a manifest that the peer offered in this session or owned a recorded part
   of before it; the file is there with that size and hash, under that manifest's name, which nothing had at the start.
   */
  lemma ServeLeavesATrail(disk: Disk, hash: seq<byte> -> Digest, peer: Key, first: Option<Message>, accepts: bool, admin: Admin,
                          inbox: seq<(Message, Env)>)
    requires DiskInv(disk, hash, {})
    ensures var r, q := Serve(disk, hash, peer, first, accepts, admin, inbox), ScopeOf(peer, hash, disk, inbox);
            && SessionTrail(r.log, r.sent, r.flow)
            && (admin.auditEnd && r.sent != [] && r.sent[0].Accepted? ==>
                  |r.log| >= 3 && r.log[|r.log| - 1] == Disconnected(r.flow))
            && EntriesArePublished(r.disk, q, r.log) && RepliesArePublished(r.disk, q, r.sent)
  {
    if first.Some? && first.value.Request? && accepts && admin.auditRequest && admin.auditDecision && admin.sendDecision {
      var q := ScopeOf(peer, hash, disk, inbox);
      var end, flow := ConverseLeaves(q, first.value.mode, admin.desktopOk, inbox);
      FramedTrail(end, q, ModePermissions(first.value.mode), flow);
    }
  }

  lemma ConverseLeaves(q: Scope, mode: Mode, desktopOk: bool, inbox: seq<(Message, Env)>) returns (end: State, flow: Flow)
    requires DiskInv(q.from, q.hash, {}) && q == ScopeOf(q.peer, q.hash, q.from, inbox)
    ensures (end, flow) == Converse(q.from, q.hash, q.peer, mode, desktopOk, inbox)
    ensures TransferTrail(end.log) && CompletionsArePublished(end, q)
  {
    var r := Converse(q.from, q.hash, q.peer, mode, desktopOk, inbox);
    end, flow := r.0, r.1;
    if !IsDesktop(mode) {
      forall i | 0 <= i < |inbox| ensures MayAsk(q, inbox[i].0) {
        if inbox[i].0.FileOffer? { assert inbox[i].0 == FileOffer(inbox[i].0.manifest); }
      }
      OperateLeaves(State(q.from, None, 0, [], []), ModeRights(mode), q, inbox);
    }
  }

  /** Putting the loop's trail between the session's own records, and its replies behind the acceptance. */
  lemma FramedTrail(end: State, q: Scope, granted: Profile, flow: Flow)
    requires TransferTrail(end.log) && CompletionsArePublished(end, q)
    ensures var body, sent := [REQUESTED, ACCEPTED] + end.log, [Accepted(granted)] + end.sent;
            && SessionTrail(body, sent, Failed(AuditFailed)) && SessionTrail(body + [Disconnected(flow)], sent, flow)
            && EntriesArePublished(end.disk, q, body) && EntriesArePublished(end.disk, q, body + [Disconnected(flow)])
            && RepliesArePublished(end.disk, q, sent)
  {
    var body, sent := [REQUESTED, ACCEPTED] + end.log, [Accepted(granted)] + end.sent;
    assert body[..2] == [REQUESTED, ACCEPTED] && body[2..] == end.log;
    var whole := body + [Disconnected(flow)];
    assert whole[..2] == [REQUESTED, ACCEPTED] && whole[2..|whole| - 1] == end.log;
    assert |end.log| > 0 ==> body[|body| - 1] == end.log[|end.log| - 1];
    assert forall i | 2 <= i < |body| :: body[i] == end.log[i - 2] == whole[i];
    assert forall i | 1 <= i < |sent| :: sent[i] == end.sent[i - 1];
  }

  /** Nothing but locks differs. */
  predicate SameFiles(d: Disk, d': Disk) {
    d'.names == d.names && d'.files == d.files && d'.records == d.records
  }

  /** Each reply reveals an operation that needs one particular permission. */
  predicate AllowedReply(g: Rights, m: Message) {
    match m
    case ChatText(_) => g.chat
    case Close => g.chat
    case _ => g.files
  }

  ghost predicate Gated(s: State, s': State, g: Rights) {
    && (g.files || (SameFiles(s.disk, s'.disk) && s'.log == s.log))
    && s.sent <= s'.sent
    && (forall i | |s.sent| <= i < |s'.sent| :: AllowedReply(g, s'.sent[i]))
  }

  lemma HandleIsGated(s: State, g: Rights, peer: Key, hash: seq<byte> -> Digest, m: Message, env: Env)
    requires Usable(s)
    ensures Gated(s, Handle(s, g, peer, hash, m, env).0, g)
  {
  }

  /** Over a whole session, files, audit trail and replies change only under the permission that covers the change. */
  lemma {:induction false} OperateIsGated(s: State, g: Rights, peer: Key, hash: seq<byte> -> Digest, inbox: seq<(Message, Env)>)
    requires Usable(s)
    ensures Gated(s, Operate(s, g, peer, hash, inbox).0, g)
    decreases |inbox|
  {
    if inbox != [] {
      var (m, env) := inbox[0];
      IterateIsGated(s, g, peer, hash, m, env);
      IterateKeepsUsable(s, g, peer, hash, m, env);
      var (s', flow) := Iterate(s, g, peer, hash, m, env);
      if flow.Continue? { OperateIsGated(s', g, peer, hash, inbox[1..]); }
    }
  }

  lemma IterateIsGated(s: State, g: Rights, peer: Key, hash: seq<byte> -> Digest, m: Message, env: Env)
    requires Usable(s)
    ensures Gated(s, Iterate(s, g, peer, hash, m, env).0, g)
  {
    HandleIsGated(Counted(s, env), g, peer, hash, m, env);
  }

  lemma ListedRights(mode: Mode, values: seq<Permission>)
    requires ModePermissions(mode) == Of(values)
    ensures ModeRights(mode) == Rights(Chat in values, FileManager in values)
    ensures TryFrom(ModePermissions(mode).bits) == Ok(ModePermissions(mode))
  {
    OfAllowsItsValues(values, Chat);
    OfAllowsItsValues(values, FileManager);
    OfIsKnown(values);
  }

  lemma ModesGrantOneOperation(mode: Mode)
    ensures ModeRights(mode) == Rights(mode == ChatOnly, mode == FilesOnly)
    ensures TryFrom(ModePermissions(mode).bits) == Ok(ModePermissions(mode))
  {
    match mode
    case ChatOnly => ListedRights(mode, [Chat]);
    case FilesOnly => ListedRights(mode, [FileManager]);
    case ScreenView => ListedRights(mode, [ViewDesktop, RemotePointer]);
    case RemoteControl => ListedRights(mode, [ViewDesktop, RemotePointer, Input]);
    case ScreenViewClipboard => ListedRights(mode, [ViewDesktop, RemotePointer, ClipboardText]);
    case RemoteControlClipboard => ListedRights(mode, [ViewDesktop, RemotePointer, Input, ClipboardText]);
  }

  /**
   A session answers if and only if it begins with a request and its first three audit records and sends succeed: with the
   permissions of just the requested mode if the local user accepts, and otherwise with a refusal, and then nothing happens.
   */
  lemma ServeAnswersTheRequest(disk: Disk, hash: seq<byte> -> Digest, peer: Key, first: Option<Message>, accepts: bool, admin: Admin,
                               inbox: seq<(Message, Env)>)
    requires Structured(disk)
    ensures var r := Serve(disk, hash, peer, first, accepts, admin, inbox);
            && (r.sent != [] <==> first.Some? && first.value.Request? && admin.auditRequest && admin.auditDecision && admin.sendDecision)
            && (r.sent != [] && accepts ==> r.sent[0] == Accepted(ModePermissions(first.value.mode)))
            && (r.sent != [] && !accepts ==> r == Served(disk, [REQUESTED, REJECTED], [Message.Rejected], Done))
            && (r.log != [] <==> first.Some? && first.value.Request? && admin.auditRequest)
            && (r.sent != [] && accepts && IsDesktop(first.value.mode) && admin.auditEnd ==> (r.flow.Done? <==> admin.desktopOk))
  {
  }

  /** What each mode lets the peer do, permission by permission. */
  lemma ModesGrantJustThis(mode: Mode, p: Permission)
    ensures Allows(ModePermissions(mode), p) <==>
              match p
              case Chat => mode == ChatOnly
              case FileManager => mode == FilesOnly
              case ViewDesktop => IsDesktop(mode)
              case RemotePointer => IsDesktop(mode)
              case Input => mode == RemoteControl || mode == RemoteControlClipboard
              case ClipboardText => mode == ScreenViewClipboard || mode == RemoteControlClipboard
              case _ => false
  {
    match mode
    case ChatOnly => OfAllowsItsValues([Chat], p);
    case FilesOnly => OfAllowsItsValues([FileManager], p);
    case ScreenView => OfAllowsItsValues([ViewDesktop, RemotePointer], p);
    case RemoteControl => OfAllowsItsValues([ViewDesktop, RemotePointer, Input], p);
    case ScreenViewClipboard => OfAllowsItsValues([ViewDesktop, RemotePointer, ClipboardText], p);
    case RemoteControlClipboard => OfAllowsItsValues([ViewDesktop, RemotePointer, Input, ClipboardText], p);
  }

  /**
   Whatever the peer sends: only an accepted file session touches the directory's contents, only an accepted chat
   session is answered with text, and nothing at all happens without the local decision.
   */
  lemma ServeNeedsConsent(disk: Disk, hash: seq<byte> -> Digest, peer: Key, first: Option<Message>, accepts: bool, admin: Admin,
                          inbox: seq<(Message, Env)>)
    requires Structured(disk)
    ensures var r := Serve(disk, hash, peer, first, accepts, admin, inbox);
            && (!SameFiles(disk, r.disk) ==> accepts && first == Some(Request(FilesOnly)))
            && (forall i | 0 <= i < |r.sent| && r.sent[i].ChatText? :: accepts && first == Some(Request(ChatOnly)))
  {
    if first.Some? && first.value.Request? && accepts && admin.auditRequest && admin.auditDecision && admin.sendDecision {
      var mode := first.value.mode;
      var start, g := State(disk, None, 0, [], []), ModeRights(mode);
      ModesGrantOneOperation(mode);
      if !IsDesktop(mode) { OperateIsGated(start, g, peer, hash, inbox); }
    }
  }
}
